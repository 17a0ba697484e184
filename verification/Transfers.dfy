/**
 The transfers service and its withdrawal worker, step by step over the requests table, the chain and the accounts
 service. Every step moves the shared state of the whole exchange by a step of the withdrawal saga.
 */
module Transfers {
  import opened Wrappers
  import opened Domain
  import opened Ledger
  import opened Exchange
  import opened Calls
  import opened Safety
  import opened Shared
  import W = Withdrawals

  /** A row of withdrawal_requests, and what the chain will report for its transaction once there is one. */
  datatype RequestRow = RequestRow(id: string, account: Account, amount: nat, key: string, status: W.Status, hash: bool,
                                   receipt: bool)

  function RowOf(w: W.Withdrawal): RequestRow
  {
    RequestRow(w.terms.id, w.terms.account, w.terms.amount, w.terms.key, w.status, w.hash, w.terms.receipt)
  }

  /** The row each withdrawal has; a request that is locked but not inserted has none. */
  ghost predicate RowsMatch(rows: seq<RequestRow>, at: seq<nat>, withdrawals: seq<W.Withdrawal>)
  {
    && |at| == |rows|
    && (forall j :: 0 <= j < |rows| ==> at[j] < |withdrawals| && rows[j] == RowOf(withdrawals[at[j]]))
    && (forall j, k :: 0 <= j < k < |at| ==> at[j] != at[k])
    && (forall j :: 0 <= j < |rows| ==> rows[j].status != W.REQUESTED)
    && (forall i: nat :: i < |withdrawals| && withdrawals[i].status != W.REQUESTED ==> i in at)
    && (forall i :: 0 <= i < |withdrawals| && withdrawals[i].status == W.REQUESTED ==> !withdrawals[i].hash)
  }

  predicate HasRequest(rows: seq<RequestRow>, user: UserId, key: string)
  {
    exists j :: 0 <= j < |rows| && rows[j].account.user == user && rows[j].key == key
  }

  predicate OthersKept(before: seq<RequestRow>, after: seq<RequestRow>, j: nat)
  {
    |after| == |before| && forall k :: 0 <= k < |before| && k != j ==> after[k] == before[k]
  }

  /** The withdrawal_requests table: unique on (user, key). The ghost list names each row's withdrawal. */
  class TransfersRepository {
    var rows: seq<RequestRow>
    ghost var at: seq<nat>

    constructor ()
      ensures rows == [] && at == []
    {
      rows, at := [], [];
    }

    method FindWithdrawalByIdempotency(user: UserId, key: string) returns (found: Option<RequestRow>)
      ensures found.Some? <==> HasRequest(rows, user, key)
      ensures found.Some? ==> found.value in rows && found.value.account.user == user && found.value.key == key
    {
      var j := 0;
      while j < |rows|
        invariant 0 <= j <= |rows|
        invariant forall k :: 0 <= k < j ==> rows[k].account.user != user || rows[k].key != key
      {
        if rows[j].account.user == user && rows[j].key == key {
          return Some(rows[j]);
        }
        j := j + 1;
      }
      return None;
    }

    /** The insert fails on the unique index. */
    method CreateWithdrawalRequest(row: RequestRow, ghost i: nat) returns (created: bool)
      modifies this
      ensures created <==> !HasRequest(old(rows), row.account.user, row.key)
      ensures rows == old(rows) + (if created then [row] else [])
      ensures at == old(at) + (if created then [i] else [])
    {
      var existing := FindWithdrawalByIdempotency(row.account.user, row.key);
      if existing.Some? {
        return false;
      }
      rows, at := rows + [row], at + [i];
      return true;
    }

    /** Claims the oldest PENDING request. */
    method LockNextPendingWithdrawal() returns (next: Option<nat>)
      modifies this`rows
      ensures next.None? ==> rows == old(rows) && forall j :: 0 <= j < |rows| ==> rows[j].status != W.PENDING
      ensures next.Some? ==>
                && next.value < |old(rows)| && old(rows)[next.value].status == W.PENDING
                && (forall j :: 0 <= j < next.value ==> old(rows)[j].status != W.PENDING)
                && rows == old(rows)[next.value := old(rows)[next.value].(status := W.PROCESSING)]
    {
      var j := 0;
      while j < |rows|
        invariant 0 <= j <= |rows| && rows == old(rows)
        invariant forall k :: 0 <= k < j ==> rows[k].status != W.PENDING
      {
        if rows[j].status == W.PENDING {
          rows := rows[j := rows[j].(status := W.PROCESSING)];
          return Some(j);
        }
        j := j + 1;
      }
      return None;
    }

    method UpdateWithdrawalTx(j: nat)
      requires j < |rows|
      modifies this`rows
      ensures rows == old(rows)[j := old(rows)[j].(hash := true)]
    {
      rows := rows[j := rows[j].(hash := true)];
    }

    method SetStatus(j: nat, status: W.Status)
      requires j < |rows|
      modifies this`rows
      ensures rows == old(rows)[j := old(rows)[j].(status := status)]
    {
      rows := rows[j := rows[j].(status := status)];
    }

    /** PROCESSING requests whose transaction hash is stored. */
    method FindProcessingWithdrawalsWithTxHash() returns (stuck: seq<nat>)
      ensures forall j :: j in stuck <==> (0 <= j < |rows| && rows[j].status == W.PROCESSING && rows[j].hash)
      ensures forall k :: 0 <= k < |stuck| ==> stuck[k] < |rows|
      ensures forall k, l :: 0 <= k < l < |stuck| ==> stuck[k] != stuck[l]
    {
      stuck := [];
      var j := 0;
      while j < |rows|
        invariant 0 <= j <= |rows|
        invariant forall k :: k in stuck <==> (0 <= k < j && rows[k].status == W.PROCESSING && rows[k].hash)
        invariant forall k :: 0 <= k < |stuck| ==> stuck[k] < j
        invariant forall k, l :: 0 <= k < l < |stuck| ==> stuck[k] != stuck[l]
      {
        if rows[j].status == W.PROCESSING && rows[j].hash {
          stuck := stuck + [j];
        }
        j := j + 1;
      }
    }
  }

  /** How the outside calls of one step-by-step run go. A send may throw although the chain took the transaction. */
  datatype Faults = Faults(sends: bool, chainTakes: bool, records: bool, waits: bool, ledgerReaches: bool,
                           ledgerAcknowledged: bool, stores: bool)

  // ---------------------------------------------------------------------------------------------------------
  // The events of the worker's methods
  // ---------------------------------------------------------------------------------------------------------

  /** completeWithdrawal by an agent: debit, then COMPLETED unless the debit failed. */
  function CompleteSteps(env: W.Environment, s: State, i: nat, agent: nat, f: Faults): State
  {
    var debited := StepSaga(env, s, i, W.Move(agent, W.Went(f.ledgerAcknowledged, false)), f.ledgerReaches);
    if AgentAt(debited, i, agent, W.COMPLETING)
    then Moved(env, debited, i, agent, f.stores) else debited
  }

  /** failWithdrawal by an agent: unlock, then FAILED whatever became of the unlock. */
  function FailSteps(env: W.Environment, s: State, i: nat, agent: nat, f: Faults): State
  {
    var unlocked := StepSaga(env, s, i, W.Move(agent, W.Went(f.ledgerAcknowledged, false)), f.ledgerReaches);
    Moved(env, unlocked, i, agent, f.stores)
  }

  predicate AgentAt(s: State, i: nat, agent: nat, a: W.Agent)
  {
    i < |s.withdrawals| && agent < |s.withdrawals[i].agents| && s.withdrawals[i].agents[agent] == a
  }

  /** What an agent that holds a decision does next. */
  function FinishSteps(env: W.Environment, s: State, i: nat, agent: nat, f: Faults): State
  {
    if AgentAt(s, i, agent, W.DEBITING) then CompleteSteps(env, s, i, agent, f) else FailSteps(env, s, i, agent, f)
  }

  /** A move of an agent that calls nobody in the accounts service. */
  function Moved(env: W.Environment, s: State, i: nat, agent: nat, ok: bool): State
  {
    StepSaga(env, s, i, W.Move(agent, W.Went(ok, false)), true)
  }

  /** The send, which the chain may have taken even if the agent is told otherwise. */
  function Sent(env: W.Environment, s: State, i: nat, agent: nat, f: Faults): State
  {
    StepSaga(env, s, i, W.Move(agent, W.Went(f.sends, f.chainTakes)), true)
  }

  /** executeOnChainWithdrawal: send, record the hash, wait, and complete or fail; a thrown error fails. */
  function ExecuteSteps(env: W.Environment, s: State, i: nat, agent: nat, f: Faults): State
  {
    var sent := Sent(env, s, i, agent, f);
    if !f.sends then FailSteps(env, sent, i, agent, f) else
    var recorded := Moved(env, sent, i, agent, f.records);
    if !f.records then FailSteps(env, recorded, i, agent, f) else
    FinishSteps(env, Moved(env, recorded, i, agent, f.waits), i, agent, f)
  }

  /** Recovery of one stuck request: a fresh agent reads the receipt, unless the query fails, and finishes. */
  function RecoverSteps(env: W.Environment, s: State, i: nat, f: Faults): State
  {
    if !f.waits || i >= |s.withdrawals| then s
    else FinishSteps(env, StepSaga(env, s, i, W.Recover, true), i, |s.withdrawals[i].agents|, f)
  }

  function RecoverAllSteps(env: W.Environment, s: State, at: seq<nat>, stuck: seq<nat>, f: nat -> Faults): State
    requires forall k :: 0 <= k < |stuck| ==> stuck[k] < |at|
  {
    if stuck == [] then s
    else
      var j := stuck[|stuck| - 1];
      RecoverSteps(env, RecoverAllSteps(env, s, at, stuck[..|stuck| - 1], f), at[j], f(j))
  }

  /** Recording, waiting, and sending what the chain takes only fail where the environment lets them. */
  predicate Possible(env: W.Environment, f: Faults)
  {
    && (f.records || env.recordMayThrow) && (f.waits || env.waitMayThrow)
    && (f.sends || !f.chainTakes || env.sendMayThrow)
  }

  // ---------------------------------------------------------------------------------------------------------
  // Single moves
  // ---------------------------------------------------------------------------------------------------------

  predicate Plain(a: W.Agent)
  {
    a != W.DEBITING && a != W.UNLOCKING && a != W.GONE
  }

  /** What a move without a ledger call writes to the request's row. */
  function RowAfter(row: RequestRow, a: W.Agent, ok: bool): RequestRow
  {
    match a
    case SENT => if ok then row.(hash := true) else row
    case COMPLETING => if ok then row.(status := W.COMPLETED) else row
    case FAILING => if ok then row.(status := W.FAILED) else row
    case _ => row
  }

  function NextAgent(env: W.Environment, receipt: bool, a: W.Agent, ok: bool): W.Agent
  {
    match a
    case CLAIMED => if ok then W.SENT else W.UNLOCKING
    case SENT => if ok then W.WAITING else if env.recordMayThrow then W.UNLOCKING else W.SENT
    case WAITING =>
      if ok then (if receipt then W.DEBITING else W.UNLOCKING) else if env.waitMayThrow then W.UNLOCKING else W.WAITING
    case _ => W.GONE
  }

  lemma PlainAdvance(env: W.Environment, w: W.Withdrawal, a: W.Agent, ok: bool, applied: bool)
    requires Plain(a)
    ensures var (r, b) := W.Advance(env, w, a, ok, applied);
            RowOf(r) == RowAfter(RowOf(w), a, ok) && b == NextAgent(env, w.terms.receipt, a, ok)
  {
  }

  lemma PlainMove(env: W.Environment, w: W.Withdrawal, agent: nat, ok: bool, applied: bool)
    requires agent < |w.agents| && Plain(w.agents[agent])
    ensures var c := W.Step(env, w, W.Move(agent, W.Went(ok, applied)));
            && RowOf(c) == RowAfter(RowOf(w), w.agents[agent], ok)
            && c.agents == w.agents[agent := NextAgent(env, w.terms.receipt, w.agents[agent], ok)]
  {
    hide W.Advance;
    PlainAdvance(env, w, w.agents[agent], ok, applied);
  }

  /** A move without a ledger call keeps rows and withdrawals in line when the row is written as it should be. */
  lemma PlainMoveKeeps(env: W.Environment, s: State, rows: seq<RequestRow>, at: seq<nat>, j: nat, agent: nat, ok: bool,
                       applied: bool)
    requires RowsMatch(rows, at, s.withdrawals) && j < |rows|
    requires agent < |s.withdrawals[at[j]].agents| && Plain(s.withdrawals[at[j]].agents[agent])
    ensures var a := s.withdrawals[at[j]].agents[agent];
            var t := StepSaga(env, s, at[j], W.Move(agent, W.Went(ok, applied)), true);
            && t.books == s.books && |t.withdrawals| == |s.withdrawals|
            && RowsMatch(rows[j := RowAfter(rows[j], a, ok)], at, t.withdrawals)
            && AgentAt(t, at[j], agent, NextAgent(env, rows[j].receipt, a, ok))
  {
    hide W.Step;
    var i := at[j];
    PlainMove(env, s.withdrawals[i], agent, ok, applied);
    var t := StepSaga(env, s, i, W.Move(agent, W.Went(ok, applied)), true);
    SagaRows(rows, at, s.withdrawals, t.withdrawals, j, RowAfter(rows[j], s.withdrawals[i].agents[agent], ok));
  }

  lemma DebitMove(env: W.Environment, s: State, i: nat, agent: nat, ok: bool, reaches: bool)
    requires AgentAt(s, i, agent, W.DEBITING)
    ensures var w := s.withdrawals[i];
            var r := Call(s.books, DebitRequest(w.terms), reaches);
            var next := if ok && r.accepted && (w.debited || r.applied) then W.COMPLETING else W.GONE;
            StepSaga(env, s, i, W.Move(agent, W.Went(ok, false)), reaches)
            == s.(books := r.books,
                  withdrawals := s.withdrawals[i := w.(debited := w.debited || r.applied,
                                                       agents := w.agents[agent := next])])
  {
  }

  lemma UnlockMove(env: W.Environment, s: State, i: nat, agent: nat, ok: bool, reaches: bool)
    requires AgentAt(s, i, agent, W.UNLOCKING)
    ensures var w := s.withdrawals[i];
            var r := Call(s.books, WithdrawUnlockRequest(w.terms), reaches);
            StepSaga(env, s, i, W.Move(agent, W.Went(ok, false)), reaches)
            == s.(books := r.books,
                  withdrawals := s.withdrawals[i := w.(unlocked := w.unlocked || r.applied,
                                                       agents := w.agents[agent := W.FAILING])])
  {
  }

  /** The accounts service and the requests table are in line with the shared state. */
  ghost predicate Fits(world: World, repository: TransfersRepository, balances: BalancesRepository)
    reads world, repository, balances
  {
    && world.Valid() && balances.View() == world.exchange.books
    && RowsMatch(repository.rows, repository.at, world.exchange.withdrawals)
  }

  /** A debit is answered with a success only if the saga's own debit is in the ledger. */
  lemma {:induction false} DebitIsOwn(s: State, i: nat, reaches: bool)
    requires Inv(s) && i < |s.withdrawals|
    ensures var r := Call(s.books, DebitRequest(s.withdrawals[i].terms), reaches);
            r.accepted ==> s.withdrawals[i].debited || r.applied
  {
    hide Inv;
    FlagsAreEntries(s, i);
    CallPosts(s.books, DebitRequest(s.withdrawals[i].terms), reaches);
  }

  class WithdrawalProcessor {
    const repository: TransfersRepository
    const balances: BalancesRepository
    ghost const world: World

    ghost predicate Valid()
      reads world, repository, balances
    {
      Fits(world, repository, balances)
    }

    constructor (repository: TransfersRepository, balances: BalancesRepository, ghost world: World)
      requires Fits(world, repository, balances)
      ensures Valid() && this.repository == repository && this.balances == balances && this.world == world
    {
      this.repository, this.balances, this.world := repository, balances, world;
    }

    /** The debit call of completeWithdrawal. */
    method Debit(j: nat, ghost agent: nat, reaches: bool, acknowledged: bool) returns (ok: bool)
      requires Valid() && j < |repository.rows|
      requires AgentAt(world.exchange, repository.at[j], agent, W.DEBITING)
      modifies balances, world
      ensures Valid() && TransfersMoved(old(world.exchange), world.exchange)
      ensures world.exchange == StepSaga(world.env, old(world.exchange), repository.at[j],
                                         W.Move(agent, W.Went(acknowledged, false)), reaches)
      ensures AgentAt(world.exchange, repository.at[j], agent, if ok then W.COMPLETING else W.GONE)
    {
      hide StepSaga, Inv, Mutate;
      var row := repository.rows[j];
      ghost var i, before := repository.at[j], world.exchange;
      ghost var t := before.withdrawals[i].terms;
      DebitMove(world.env, before, i, agent, acknowledged, reaches);
      DebitIsOwn(before, i, reaches);
      CallPosts(before.books, DebitRequest(t), reaches);
      ok := false;
      if reaches && row.amount > 0 {
        var outcome := balances.DebitWithdrawal(row.account, row.amount, "withdrawal-debit:" + row.id, Named(row.id));
        ok := (outcome.status == OK || outcome.status == IDEMPOTENT_REPLAY) && acknowledged;
      }
      world.Saga(i, W.Move(agent, W.Went(acknowledged, false)), reaches);
      SagaRows(repository.rows, repository.at, before.withdrawals, world.exchange.withdrawals, j, row);
      assert repository.rows[j := row] == repository.rows;
    }

    /** The unlock call of failWithdrawal; its failure is only logged. */
    method Unlock(j: nat, ghost agent: nat, reaches: bool, acknowledged: bool)
      requires Valid() && j < |repository.rows|
      requires AgentAt(world.exchange, repository.at[j], agent, W.UNLOCKING)
      modifies balances, world
      ensures Valid() && TransfersMoved(old(world.exchange), world.exchange)
      ensures world.exchange == StepSaga(world.env, old(world.exchange), repository.at[j],
                                         W.Move(agent, W.Went(acknowledged, false)), reaches)
      ensures AgentAt(world.exchange, repository.at[j], agent, W.FAILING)
    {
      hide StepSaga, Inv, Mutate;
      var row := repository.rows[j];
      ghost var i, before := repository.at[j], world.exchange;
      UnlockMove(world.env, before, i, agent, acknowledged, reaches);
      CallPosts(before.books, WithdrawUnlockRequest(before.withdrawals[i].terms), reaches);
      if reaches && row.amount > 0 {
        var outcome := balances.Unlock(row.account, row.amount, "withdrawal-unlock:" + row.key, Named(row.id));
      }
      world.Saga(i, W.Move(agent, W.Went(acknowledged, false)), reaches);
      SagaRows(repository.rows, repository.at, before.withdrawals, world.exchange.withdrawals, j, row);
      assert repository.rows[j := row] == repository.rows;
    }

    /** Writes a final status, if the write succeeds. */
    method Store(j: nat, ghost agent: nat, stores: bool, status: W.Status)
      requires Valid() && j < |repository.rows|
      requires status == W.COMPLETED || status == W.FAILED
      requires AgentAt(world.exchange, repository.at[j], agent,
                       if status == W.COMPLETED then W.COMPLETING else W.FAILING)
      modifies repository`rows, world
      ensures Valid() && TransfersMoved(old(world.exchange), world.exchange)
      ensures world.exchange == Moved(world.env, old(world.exchange), repository.at[j], agent, stores)
      ensures OthersKept(old(repository.rows), repository.rows, j)
    {
      hide StepSaga, Inv;
      PlainMoveKeeps(world.env, world.exchange, repository.rows, repository.at, j, agent, stores, false);
      if stores {
        repository.SetStatus(j, status);
      }
      assert !stores ==> repository.rows[j := repository.rows[j]] == repository.rows;
      world.Saga(repository.at[j], W.Move(agent, W.Went(stores, false)), true);
    }

    method CompleteWithdrawal(j: nat, ghost agent: nat, f: Faults)
      requires Valid() && j < |repository.rows|
      requires AgentAt(world.exchange, repository.at[j], agent, W.DEBITING)
      modifies repository`rows, balances, world
      ensures Valid() && TransfersMoved(old(world.exchange), world.exchange)
      ensures world.exchange == CompleteSteps(world.env, old(world.exchange), repository.at[j], agent, f)
      ensures OthersKept(old(repository.rows), repository.rows, j)
    {
      hide StepSaga, Inv, RowsMatch;
      var ok := Debit(j, agent, f.ledgerReaches, f.ledgerAcknowledged);
      if ok {
        Store(j, agent, f.stores, W.COMPLETED);
      }
    }

    method FailWithdrawal(j: nat, ghost agent: nat, f: Faults)
      requires Valid() && j < |repository.rows|
      requires AgentAt(world.exchange, repository.at[j], agent, W.UNLOCKING)
      modifies repository`rows, balances, world
      ensures Valid() && TransfersMoved(old(world.exchange), world.exchange)
      ensures world.exchange == FailSteps(world.env, old(world.exchange), repository.at[j], agent, f)
      ensures OthersKept(old(repository.rows), repository.rows, j)
    {
      hide StepSaga, Inv, RowsMatch;
      Unlock(j, agent, f.ledgerReaches, f.ledgerAcknowledged);
      Store(j, agent, f.stores, W.FAILED);
    }

    /** Sending; the chain itself is outside. */
    method SendAndRecord(j: nat, ghost agent: nat, f: Faults) returns (recorded: bool)
      requires Valid() && j < |repository.rows|
      requires AgentAt(world.exchange, repository.at[j], agent, W.CLAIMED)
      requires Possible(world.env, f)
      modifies repository`rows, world
      ensures Valid() && TransfersMoved(old(world.exchange), world.exchange)
      ensures |repository.rows| == |old(repository.rows)| && recorded == (f.sends && f.records)
      ensures world.exchange == var sent := Sent(world.env, old(world.exchange), repository.at[j], agent, f);
                                if f.sends then Moved(world.env, sent, repository.at[j], agent, f.records) else sent
      ensures AgentAt(world.exchange, repository.at[j], agent, if recorded then W.WAITING else W.UNLOCKING)
      ensures repository.rows[j].receipt == old(repository.rows[j].receipt)
    {
      hide StepSaga, Inv;
      PlainMoveKeeps(world.env, world.exchange, repository.rows, repository.at, j, agent, f.sends, f.chainTakes);
      assert repository.rows[j := repository.rows[j]] == repository.rows;
      world.Saga(repository.at[j], W.Move(agent, W.Went(f.sends, f.chainTakes)), true);
      if !f.sends {
        return false;
      }
      PlainMoveKeeps(world.env, world.exchange, repository.rows, repository.at, j, agent, f.records, false);
      if f.records {
        repository.UpdateWithdrawalTx(j);
      }
      assert !f.records ==> repository.rows[j := repository.rows[j]] == repository.rows;
      world.Saga(repository.at[j], W.Move(agent, W.Went(f.records, false)), true);
      return f.records;
    }

    method ExecuteOnChainWithdrawal(j: nat, ghost agent: nat, f: Faults)
      requires Valid() && j < |repository.rows|
      requires AgentAt(world.exchange, repository.at[j], agent, W.CLAIMED)
      requires Possible(world.env, f)
      modifies repository`rows, balances, world
      ensures Valid() && TransfersMoved(old(world.exchange), world.exchange)
      ensures world.exchange == ExecuteSteps(world.env, old(world.exchange), repository.at[j], agent, f)
    {
      hide StepSaga, Inv, CompleteSteps, FailSteps;
      var recorded := SendAndRecord(j, agent, f);
      if !recorded {
        FailWithdrawal(j, agent, f);
        return;
      }
      PlainMoveKeeps(world.env, world.exchange, repository.rows, repository.at, j, agent, f.waits, false);
      assert repository.rows[j := repository.rows[j]] == repository.rows;
      world.Saga(repository.at[j], W.Move(agent, W.Went(f.waits, false)), true);
      if f.waits && repository.rows[j].receipt {
        CompleteWithdrawal(j, agent, f);
      } else {
        FailWithdrawal(j, agent, f);
      }
    }

    /** One turn of the worker loop: the oldest PENDING request is claimed and executed. */
    method ProcessNextWithdrawal(f: Faults) returns (processed: Option<nat>)
      requires Valid() && Possible(world.env, f)
      modifies repository`rows, balances, world
      ensures Valid() && TransfersMoved(old(world.exchange), world.exchange)
      ensures processed.None? ==>
                world.exchange == old(world.exchange)
                && forall k :: 0 <= k < |old(repository.rows)| ==> old(repository.rows)[k].status != W.PENDING
      ensures processed.Some? ==>
                var j, rows, before := processed.value, old(repository.rows), old(world.exchange);
                && j < |rows| && j < |repository.at| && rows[j].status == W.PENDING
                && (forall k :: 0 <= k < j ==> rows[k].status != W.PENDING)
                && var i := repository.at[j];
                   i < |before.withdrawals|
                   && world.exchange == ExecuteSteps(world.env, StepSaga(world.env, before, i, W.Claim, true), i,
                                                     |before.withdrawals[i].agents|, f)
    {
      hide StepSaga, Inv, ExecuteSteps;
      var next := repository.LockNextPendingWithdrawal();
      if next.None? {
        return None;
      }
      var j := next.value;
      ghost var agent := |world.exchange.withdrawals[repository.at[j]].agents|;
      ClaimKeeps(world.env, world.exchange, old(repository.rows), repository.at, j);
      world.Saga(repository.at[j], W.Claim, true);
      ExecuteOnChainWithdrawal(j, agent, f);
      return Some(j);
    }

    /** Completes or fails a stuck request by its receipt. */
    method RecoverOne(j: nat, f: Faults)
      requires Valid() && j < |repository.rows|
      requires f.waits ==> repository.rows[j].status == W.PROCESSING && repository.rows[j].hash
      modifies repository`rows, balances, world
      ensures Valid() && TransfersMoved(old(world.exchange), world.exchange)
      ensures world.exchange == RecoverSteps(world.env, old(world.exchange), repository.at[j], f)
      ensures OthersKept(old(repository.rows), repository.rows, j)
    {
      hide StepSaga, Inv, CompleteSteps, FailSteps;
      if !f.waits {
        return;
      }
      ghost var agent := |world.exchange.withdrawals[repository.at[j]].agents|;
      RecoverKeeps(world.env, world.exchange, repository.rows, repository.at, j);
      world.Saga(repository.at[j], W.Recover, true);
      if repository.rows[j].receipt {
        CompleteWithdrawal(j, agent, f);
      } else {
        FailWithdrawal(j, agent, f);
      }
    }

    /** Crash recovery at startup: every PROCESSING request with a stored hash, one after the other. */
    method RecoverStuckProcessingWithdrawals(f: nat -> Faults) returns (stuck: seq<nat>)
      requires Valid()
      modifies repository`rows, balances, world
      ensures Valid() && TransfersMoved(old(world.exchange), world.exchange)
      ensures forall j :: j in stuck <==>
                (0 <= j < |old(repository.rows)| && old(repository.rows)[j].status == W.PROCESSING
                 && old(repository.rows)[j].hash)
      ensures forall k :: 0 <= k < |stuck| ==> stuck[k] < |repository.at|
      ensures world.exchange == RecoverAllSteps(world.env, old(world.exchange), repository.at, stuck, f)
    {
      hide RecoverSteps, Inv;
      stuck := repository.FindProcessingWithdrawalsWithTxHash();
      var k := 0;
      while k < |stuck|
        invariant 0 <= k <= |stuck| && Valid() && |repository.rows| == |old(repository.rows)|
        invariant TransfersMoved(old(world.exchange), world.exchange)
        invariant forall l :: k <= l < |stuck| ==> repository.rows[stuck[l]] == old(repository.rows)[stuck[l]]
        invariant world.exchange == RecoverAllSteps(world.env, old(world.exchange), repository.at, stuck[..k], f)
      {
        assert stuck[k] in stuck;
        assert stuck[..k + 1][..k] == stuck[..k];
        RecoverOne(stuck[k], f(stuck[k]));
        k := k + 1;
      }
      assert stuck[..k] == stuck;
    }
  }

  lemma NoCallMoves(env: W.Environment, s: State, i: nat, e: W.Event)
    requires i < |s.withdrawals| && (e.Start? || e.InsertCall? || e.Claim? || e.Recover?)
    ensures StepSaga(env, s, i, e, true) == s.(withdrawals := s.withdrawals[i := W.Step(env, s.withdrawals[i], e)])
  {
  }

  lemma ClaimKeeps(env: W.Environment, s: State, rows: seq<RequestRow>, at: seq<nat>, j: nat)
    requires RowsMatch(rows, at, s.withdrawals) && j < |rows| && rows[j].status == W.PENDING
    ensures var t := StepSaga(env, s, at[j], W.Claim, true);
            && t.books == s.books && |t.withdrawals| == |s.withdrawals|
            && RowsMatch(rows[j := rows[j].(status := W.PROCESSING)], at, t.withdrawals)
            && AgentAt(t, at[j], |s.withdrawals[at[j]].agents|, W.CLAIMED)
  {
    hide StepSaga;
    NoCallMoves(env, s, at[j], W.Claim);
    SagaRows(rows, at, s.withdrawals, StepSaga(env, s, at[j], W.Claim, true).withdrawals, j,
             rows[j].(status := W.PROCESSING));
  }

  lemma RecoverKeeps(env: W.Environment, s: State, rows: seq<RequestRow>, at: seq<nat>, j: nat)
    requires RowsMatch(rows, at, s.withdrawals) && j < |rows| && rows[j].status == W.PROCESSING && rows[j].hash
    ensures var t := StepSaga(env, s, at[j], W.Recover, true);
            && t.books == s.books && |t.withdrawals| == |s.withdrawals| && RowsMatch(rows, at, t.withdrawals)
            && AgentAt(t, at[j], |s.withdrawals[at[j]].agents|, if rows[j].receipt then W.DEBITING else W.UNLOCKING)
  {
    hide StepSaga;
    NoCallMoves(env, s, at[j], W.Recover);
    SagaRows(rows, at, s.withdrawals, StepSaga(env, s, at[j], W.Recover, true).withdrawals, j, rows[j]);
    assert rows[j := rows[j]] == rows;
  }

  // ---------------------------------------------------------------------------------------------------------
  // Requesting
  // ---------------------------------------------------------------------------------------------------------

  /** The position of the withdrawal with a key, or the length of the list. */
  function KeyIndex(withdrawals: seq<W.Withdrawal>, key: string): (i: nat)
    ensures i <= |withdrawals|
    ensures i < |withdrawals| ==> withdrawals[i].terms.key == key
  {
    if withdrawals == [] then 0
    else
      var i := KeyIndex(withdrawals[..|withdrawals| - 1], key);
      if i < |withdrawals| - 1 then i
      else if withdrawals[|withdrawals| - 1].terms.key == key then |withdrawals| - 1
      else |withdrawals|
  }

  lemma {:induction false} KeyIndexMeaning(withdrawals: seq<W.Withdrawal>, key: string)
    ensures KeyIndex(withdrawals, key) == |withdrawals| <==> !SagaKeyUsed(withdrawals, key)
  {
    if withdrawals != [] {
      var init := withdrawals[..|withdrawals| - 1];
      KeyIndexMeaning(init, key);
      if SagaKeyUsed(init, key) {
        var i :| 0 <= i < |init| && init[i].terms.key == key;
        assert withdrawals[i].terms.key == key;
      }
    }
  }

  datatype RequestFaults = RequestFaults(lockReaches: bool, lockAcknowledged: bool, inserts: bool, unlockReaches: bool)

  datatype RequestAnswer = Existing(row: RequestRow) | Created(row: RequestRow) | Invalid | LockFailed | InsertFailed

  /** The withdrawal with the key, known now or from here on. */
  function Opened(s: State, t: W.Terms): State
  {
    if KeyIndex(s.withdrawals, t.key) < |s.withdrawals| then s else StepFirstRequest(s, t)
  }

  /** requestWithdrawal after the check: a new attempt locks, then inserts, or unlocks again when the insert fails. */
  function RequestSteps(env: W.Environment, s: State, t: W.Terms, f: RequestFaults): State
  {
    var known, i := Opened(s, t), KeyIndex(s.withdrawals, t.key);
    if i >= |known.withdrawals| then known
    else AttemptSteps(env, known, i, |known.withdrawals[i].attempts|, f)
  }

  function AttemptSteps(env: W.Environment, s: State, i: nat, k: nat, f: RequestFaults): State
  {
    var started := StepSaga(env, s, i, W.Start, true);
    var locked := StepSaga(env, started, i, W.LockCall(k, f.lockAcknowledged, false), f.lockReaches);
    if !AttemptAt(locked, i, k, W.SECURED) then locked
    else
      var inserted := StepSaga(env, locked, i, W.InsertCall(k, f.inserts), true);
      if f.inserts then inserted
      else StepSaga(env, inserted, i, W.CompensateCall(k, false), f.unlockReaches)
  }

  /** The attempt's lock is confirmed to it. */
  predicate Confirmed(env: W.Environment, s: State, t: W.Terms, f: RequestFaults)
  {
    var known, i := Opened(s, t), KeyIndex(s.withdrawals, t.key);
    i < |known.withdrawals| &&
    var k := |known.withdrawals[i].attempts|;
    AttemptAt(StepSaga(env, StepSaga(env, known, i, W.Start, true), i, W.LockCall(k, f.lockAcknowledged, false),
                       f.lockReaches), i, k, W.SECURED)
  }

  predicate AttemptAt(s: State, i: nat, k: nat, a: W.Attempt)
  {
    i < |s.withdrawals| && W.At(s.withdrawals[i], k, a)
  }

  /**
   What is assumed of a request. Its key belongs to one user and the id that its row gets to one key; another amount or
   currency under the key meets a lock that is already there. The environment says when a client may try again.
   */
  predicate MayRequest(env: W.Environment, withdrawals: seq<W.Withdrawal>, t: W.Terms)
  {
    && (forall i :: 0 <= i < |withdrawals| && withdrawals[i].terms.id == t.id ==> withdrawals[i].terms.key == t.key)
    && (forall i :: 0 <= i < |withdrawals| && withdrawals[i].terms.key == t.key ==>
          && withdrawals[i].terms.account.user == t.account.user
          && (withdrawals[i].terms == t || (withdrawals[i].locked && OtherPayload(withdrawals[i].terms, t)))
          && (withdrawals[i].status == W.REQUESTED ==> W.MayStart(env, withdrawals[i])))
  }

  predicate OtherPayload(recorded: W.Terms, t: W.Terms)
  {
    recorded.amount != t.amount || recorded.account.currency != t.account.currency
  }

  /** The key was used for another amount or currency before. */
  predicate Mismatched(withdrawals: seq<W.Withdrawal>, t: W.Terms)
  {
    var i := KeyIndex(withdrawals, t.key);
    i < |withdrawals| && OtherPayload(withdrawals[i].terms, t)
  }

  class TransfersService {
    const repository: TransfersRepository
    const balances: BalancesRepository
    ghost const world: World

    ghost predicate Valid()
      reads world, repository, balances
    {
      Fits(world, repository, balances)
    }

    constructor (repository: TransfersRepository, balances: BalancesRepository, ghost world: World)
      requires Fits(world, repository, balances)
      ensures Valid() && this.repository == repository && this.balances == balances && this.world == world
    {
      this.repository, this.balances, this.world := repository, balances, world;
    }

    /**
     The lock call. A lock recorded by an earlier attempt of the same request is answered as a success; a request that
     asks for something else than the recorded one is refused.
     */
    method Lock(t: W.Terms, ghost i: nat, ghost k: nat, f: RequestFaults) returns (ok: bool)
      requires Valid() && i < |world.exchange.withdrawals| && world.exchange.withdrawals[i].terms.key == t.key
      requires var w := world.exchange.withdrawals[i];
               if OtherPayload(w.terms, t) then w.locked
               else w.terms == t && W.At(w, k, W.CHECKED) && w.status == W.REQUESTED
      modifies balances, world
      ensures Valid() && TransfersMoved(old(world.exchange), world.exchange)
      ensures OtherPayload(old(world.exchange).withdrawals[i].terms, t) ==> !ok && world.exchange == old(world.exchange)
      ensures !OtherPayload(old(world.exchange).withdrawals[i].terms, t) ==>
                && world.exchange == StepSaga(world.env, old(world.exchange), i,
                                              W.LockCall(k, f.lockAcknowledged, false), f.lockReaches)
                && AttemptAt(world.exchange, i, k, if ok then W.SECURED else W.ENDED)
                && world.exchange.withdrawals[i].terms == t && world.exchange.withdrawals[i].status == W.REQUESTED
    {
      hide StepSaga, Inv, Mutate, RowsMatch, W.At;
      ghost var before := world.exchange;
      LockAnswer(before, i, t, f.lockReaches);
      ok := false;
      if f.lockReaches && t.amount > 0 {
        var outcome := balances.Lock(t.account, t.amount, "withdraw-lock:" + t.key, Named(t.key));
        ok := (outcome.status == OK || outcome.status == IDEMPOTENT_REPLAY) && f.lockAcknowledged;
      }
      if !OtherPayload(before.withdrawals[i].terms, t) {
        LockSaga(t, i, k, f);
      }
    }

    /** The attempt's side of the lock call. */
    ghost method LockSaga(t: W.Terms, i: nat, k: nat, f: RequestFaults)
      requires world.Valid() && RowsMatch(repository.rows, repository.at, world.exchange.withdrawals)
      requires AttemptAt(world.exchange, i, k, W.CHECKED) && world.exchange.withdrawals[i].terms == t
      requires world.exchange.withdrawals[i].status == W.REQUESTED
      modifies world
      ensures world.Valid() && RowsMatch(repository.rows, repository.at, world.exchange.withdrawals)
      ensures TransfersMoved(old(world.exchange), world.exchange)
      ensures world.exchange == StepSaga(world.env, old(world.exchange), i,
                                         W.LockCall(k, f.lockAcknowledged, false), f.lockReaches)
      ensures var r := Call(old(world.exchange).books, WithdrawLockRequest(t), f.lockReaches);
              world.exchange.books == r.books
              && AttemptAt(world.exchange, i, k, if r.accepted && f.lockAcknowledged then W.SECURED else W.ENDED)
      ensures world.exchange.withdrawals[i].terms == t && world.exchange.withdrawals[i].status == W.REQUESTED
    {
      hide StepSaga, Inv, Call;
      ghost var before := world.exchange;
      LockAnswer(before, i, t, f.lockReaches);
      LockMove(world.env, before, i, k, f.lockAcknowledged, f.lockReaches);
      world.Saga(i, W.LockCall(k, f.lockAcknowledged, false), f.lockReaches);
      RowlessChange(repository.rows, repository.at, before.withdrawals, i, world.exchange.withdrawals[i]);
    }

    /** The row of a locked request. */
    method Insert(t: W.Terms, ghost i: nat, ghost k: nat) returns (row: RequestRow)
      requires Valid() && AttemptAt(world.exchange, i, k, W.SECURED) && world.exchange.withdrawals[i].terms == t
      requires world.exchange.withdrawals[i].status == W.REQUESTED
      requires !HasRequest(repository.rows, t.account.user, t.key)
      modifies repository, world
      ensures Valid() && TransfersMoved(old(world.exchange), world.exchange)
      ensures world.exchange == StepSaga(world.env, old(world.exchange), i, W.InsertCall(k, true), true)
      ensures row == RequestRow(t.id, t.account, t.amount, t.key, W.PENDING, false, t.receipt)
      ensures repository.rows == old(repository.rows) + [row]
    {
      hide StepSaga, Inv;
      row := RequestRow(t.id, t.account, t.amount, t.key, W.PENDING, false, t.receipt);
      NoCallMoves(world.env, world.exchange, i, W.InsertCall(k, true));
      InsertedRowsMatch(repository.rows, repository.at, world.exchange.withdrawals, i,
                        W.Step(world.env, world.exchange.withdrawals[i], W.InsertCall(k, true)));
      var created := repository.CreateWithdrawalRequest(row, i);
      world.Saga(i, W.InsertCall(k, true), true);
    }

    /** The failed insert and its compensating unlock, whose failure is only logged. */
    method CompensateLock(t: W.Terms, ghost i: nat, ghost k: nat, reaches: bool)
      requires Valid() && AttemptAt(world.exchange, i, k, W.SECURED) && world.exchange.withdrawals[i].terms == t
      requires world.exchange.withdrawals[i].status == W.REQUESTED
      modifies balances, world
      ensures Valid() && TransfersMoved(old(world.exchange), world.exchange)
      ensures world.exchange
           == var inserted := StepSaga(world.env, old(world.exchange), i, W.InsertCall(k, false), true);
              StepSaga(world.env, inserted, i, W.CompensateCall(k, false), reaches)
    {
      hide StepSaga, Inv, Mutate;
      ghost var before := world.exchange;
      NoCallMoves(world.env, before, i, W.InsertCall(k, false));
      world.Saga(i, W.InsertCall(k, false), true);
      RowlessChange(repository.rows, repository.at, before.withdrawals, i, world.exchange.withdrawals[i]);
      ghost var failed := world.exchange;
      CompensateMove(world.env, failed, i, k, reaches);
      if reaches && t.amount > 0 {
        var outcome := balances.Unlock(t.account, t.amount, "withdraw-lock-compensate:" + t.key, Named(t.key));
      }
      world.Saga(i, W.CompensateCall(k, false), reaches);
      RowlessChange(repository.rows, repository.at, failed.withdrawals, i, world.exchange.withdrawals[i]);
    }

    /** The attempt: the saga begins if its key is new, and the client's try starts. */
    ghost method Begin(t: W.Terms) returns (i: nat, k: nat)
      requires Valid() && MayRequest(world.env, world.exchange.withdrawals, t)
      requires !HasRequest(repository.rows, t.account.user, t.key)
      requires !Mismatched(world.exchange.withdrawals, t)
      modifies world
      ensures Valid() && TransfersMoved(old(world.exchange), world.exchange)
      ensures i == KeyIndex(old(world.exchange).withdrawals, t.key)
      ensures var known := Opened(old(world.exchange), t);
              i < |known.withdrawals| && k == |known.withdrawals[i].attempts|
              && world.exchange == StepSaga(world.env, known, i, W.Start, true)
      ensures AttemptAt(world.exchange, i, k, W.CHECKED)
      ensures world.exchange.withdrawals[i].terms == t && world.exchange.withdrawals[i].status == W.REQUESTED
    {
      hide StepSaga, Inv;
      i := KeyIndex(world.exchange.withdrawals, t.key);
      KeyIndexMeaning(world.exchange.withdrawals, t.key);
      if i == |world.exchange.withdrawals| {
        IdIsUnused(world.env, world.exchange.withdrawals, t);
        world.First(t);
      } else {
        NoRowMeansRequested(repository.rows, repository.at, world.exchange.withdrawals, i);
      }
      k := |world.exchange.withdrawals[i].attempts|;
      ghost var known := world.exchange;
      NoCallMoves(world.env, known, i, W.Start);
      world.Saga(i, W.Start, true);
      RowlessChange(repository.rows, repository.at, known.withdrawals, i, world.exchange.withdrawals[i]);
    }

    /** A repeated request is answered from its row; any other is locked and inserted, or locked and compensated. */
    method RequestWithdrawal(t: W.Terms, f: RequestFaults) returns (answer: RequestAnswer)
      requires Valid() && MayRequest(world.env, world.exchange.withdrawals, t)
      modifies repository, balances, world
      ensures Valid() && TransfersMoved(old(world.exchange), world.exchange)
      ensures if t.account.currency == BTC || t.amount == 0 || t.key == "" then
                answer == Invalid && world.exchange == old(world.exchange)
              else if HasRequest(old(repository.rows), t.account.user, t.key) then
                world.exchange == old(world.exchange) && answer.Existing? && answer.row in old(repository.rows)
                && answer.row.account.user == t.account.user && answer.row.key == t.key
              else if Mismatched(old(world.exchange).withdrawals, t) then
                answer == LockFailed && world.exchange == old(world.exchange)
              else
                && world.exchange == RequestSteps(world.env, old(world.exchange), t, f)
                && (if !Confirmed(world.env, old(world.exchange), t, f) then answer == LockFailed
                    else if !f.inserts then answer == InsertFailed
                    else answer.Created?)
      ensures answer.Created? ==>
                answer.row == RequestRow(t.id, t.account, t.amount, t.key, W.PENDING, false, t.receipt)
                && repository.rows == old(repository.rows) + [answer.row]
      ensures !answer.Created? ==> repository.rows == old(repository.rows)
    {
      hide StepSaga, Inv, RowsMatch, MayRequest;
      if t.account.currency == BTC || t.amount == 0 || t.key == "" {
        return Invalid;
      }
      var existing := repository.FindWithdrawalByIdempotency(t.account.user, t.key);
      if existing.Some? {
        return Existing(existing.value);
      }
      ghost var i, k := KeyIndex(world.exchange.withdrawals, t.key), 0;
      if Mismatched(world.exchange.withdrawals, t) {
        MismatchIsLocked(world.env, world.exchange.withdrawals, t);
      } else {
        i, k := Begin(t);
      }
      var locked := Lock(t, i, k, f);
      if !locked {
        return LockFailed;
      }
      if !f.inserts {
        CompensateLock(t, i, k, f.unlockReaches);
        return InsertFailed;
      }
      var row := Insert(t, i, k);
      return Created(row);
    }
  }

  lemma LockMove(env: W.Environment, s: State, i: nat, k: nat, ok: bool, reaches: bool)
    requires AttemptAt(s, i, k, W.CHECKED)
    ensures var w := s.withdrawals[i];
            var r := Call(s.books, WithdrawLockRequest(w.terms), reaches);
            var c := W.Locked(w, k, ok && r.accepted, r.applied);
            && StepSaga(env, s, i, W.LockCall(k, ok, false), reaches)
               == s.(books := r.books, withdrawals := s.withdrawals[i := c])
            && c.status == w.status
            && W.At(c, k, if ok && r.accepted && (w.locked || r.applied) then W.SECURED else W.ENDED)
  {
    hide Call;
  }

  /** How the lock call of a request is answered: refused if its key is recorded for something else, or else its own. */
  lemma {:induction false} LockAnswer(s: State, i: nat, t: W.Terms, reaches: bool)
    requires Inv(s) && i < |s.withdrawals| && s.withdrawals[i].terms.key == t.key
    requires OtherPayload(s.withdrawals[i].terms, t) ==> s.withdrawals[i].locked
    ensures var w, r := s.withdrawals[i], Call(s.books, WithdrawLockRequest(t), reaches);
            && (OtherPayload(w.terms, t) ==> !r.accepted && r.books == s.books)
            && (w.terms == t && r.accepted ==> w.locked || r.applied)
  {
    hide Inv;
    FlagsAreEntries(s, i);
    CallPosts(s.books, WithdrawLockRequest(t), reaches);
  }

  lemma CompensateMove(env: W.Environment, s: State, i: nat, k: nat, reaches: bool)
    requires AttemptAt(s, i, k, W.COMPENSATING)
    ensures var w := s.withdrawals[i];
            var r := Call(s.books, CompensateRequest(w.terms), reaches);
            && StepSaga(env, s, i, W.CompensateCall(k, false), reaches)
               == s.(books := r.books, withdrawals := s.withdrawals[i := W.Compensated(w, k, r.applied)])
            && W.Compensated(w, k, r.applied).status == w.status
  {
    hide Call;
  }

  lemma {:induction false} MismatchIsLocked(env: W.Environment, withdrawals: seq<W.Withdrawal>, t: W.Terms)
    requires MayRequest(env, withdrawals, t) && Mismatched(withdrawals, t)
    ensures withdrawals[KeyIndex(withdrawals, t.key)].locked
  {
  }

  lemma {:induction false} IdIsUnused(env: W.Environment, withdrawals: seq<W.Withdrawal>, t: W.Terms)
    requires MayRequest(env, withdrawals, t) && !SagaKeyUsed(withdrawals, t.key)
    ensures !SagaIdUsed(withdrawals, t.id)
  {
  }

  /** A request without a row is still REQUESTED. */
  lemma {:induction false} NoRowMeansRequested(rows: seq<RequestRow>, at: seq<nat>, withdrawals: seq<W.Withdrawal>,
                                               i: nat)
    requires RowsMatch(rows, at, withdrawals) && i < |withdrawals|
    requires !HasRequest(rows, withdrawals[i].terms.account.user, withdrawals[i].terms.key)
    ensures withdrawals[i].status == W.REQUESTED
  {
    forall j | 0 <= j < |at| ensures at[j] != i {
      assert rows[j] == RowOf(withdrawals[at[j]]);
    }
  }

  lemma {:induction false} InsertedRowsMatch(rows: seq<RequestRow>, at: seq<nat>, withdrawals: seq<W.Withdrawal>,
                                             i: nat, w: W.Withdrawal)
    requires RowsMatch(rows, at, withdrawals) && i < |withdrawals| && withdrawals[i].status == W.REQUESTED
    requires w.status != W.REQUESTED
    ensures RowsMatch(rows + [RowOf(w)], at + [i], withdrawals[i := w])
  {
    var more := at + [i];
    forall j | 0 <= j < |at| ensures at[j] != i {
      assert rows[j] == RowOf(withdrawals[at[j]]);
    }
    forall k: nat | k < |withdrawals| && withdrawals[i := w][k].status != W.REQUESTED ensures k in more {
      if k != i {
        assert k in at;
      } else {
        assert more[|at|] == k;
      }
    }
  }

  /** A request without a row may change as long as it stays without one. */
  lemma {:induction false} RowlessChange(rows: seq<RequestRow>, at: seq<nat>, withdrawals: seq<W.Withdrawal>, i: nat,
                                         w: W.Withdrawal)
    requires RowsMatch(rows, at, withdrawals) && i < |withdrawals| && withdrawals[i].status == W.REQUESTED
    requires w.status == W.REQUESTED && !w.hash
    ensures RowsMatch(rows, at, withdrawals[i := w])
  {
    forall j | 0 <= j < |at| ensures at[j] != i {
      assert rows[j] == RowOf(withdrawals[at[j]]);
    }
  }

  /** One withdrawal and its row change together; the others stay. */
  lemma SagaRows(rows: seq<RequestRow>, at: seq<nat>, before: seq<W.Withdrawal>, after: seq<W.Withdrawal>, j: nat,
                 row: RequestRow)
    requires RowsMatch(rows, at, before) && j < |rows| && |after| == |before|
    requires after == before[at[j] := after[at[j]]] && row == RowOf(after[at[j]]) && row.status != W.REQUESTED
    ensures RowsMatch(rows[j := row], at, after)
  {
  }
}
