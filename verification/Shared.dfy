/** What the services share: one state of the whole exchange, which every service moves by the machine's steps only. */
module Shared {
  import opened Exchange
  import opened Safety
  import W = Withdrawals

  class World {
    const env: W.Environment
    ghost var exchange: State

    /** The invariant of every state that a run reaches. */
    ghost predicate Valid()
      reads this
    {
      Inv(exchange)
    }

    constructor (env: W.Environment)
      ensures Valid() && exchange == EMPTY && this.env == env
    {
      this.env, exchange := env, EMPTY;
      EmptyIsOk();
    }

    /** A step of a withdrawal's saga. */
    ghost method Saga(i: nat, e: W.Event, reaches: bool)
      requires Valid()
      modifies this
      ensures Valid() && exchange == StepSaga(env, old(exchange), i, e, reaches)
      ensures TransfersMoved(old(exchange), exchange)
    {
      hide Inv, CallIfAny, LedgerCall;
      WithdrawKeeps(env, exchange, i, e, reaches);
      exchange := StepSaga(env, exchange, i, e, reaches);
    }

    /** The first request under a withdrawal key. */
    ghost method First(terms: W.Terms)
      requires Valid()
      modifies this
      ensures Valid() && exchange == StepFirstRequest(old(exchange), terms)
      ensures TransfersMoved(old(exchange), exchange)
    {
      hide Inv;
      FirstRequestKeeps(exchange, terms);
      exchange := StepFirstRequest(exchange, terms);
    }
  }

  /** A step of the orders service: nothing of the withdrawals, the log and the settlement consumer changes. */
  predicate OrdersMoved(before: State, after: State)
  {
    && after.withdrawals == before.withdrawals
    && after.processed == before.processed && after.deadLettered == before.deadLettered
    && after.channel == before.channel.(pending := after.channel.pending)
  }

  /** A step of the transfers service: nothing but the books and the withdrawals changes. */
  predicate TransfersMoved(before: State, after: State)
  {
    after == before.(books := after.books, withdrawals := after.withdrawals)
  }
}
