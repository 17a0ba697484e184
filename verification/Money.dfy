/**
 Amounts are counted in units of 1e-8, the scale of every numeric(28,8) column. A product of two such amounts
 has sixteen decimals; the two processes cut it back to eight in different ways.
 */
module Money {
  import opened Sums

  const SCALE: nat := 100_000_000

  /** The accounts process: toFixed(8) under its process-wide ROUND_DOWN. */
  function MulDown(a: nat, b: nat): (r: nat)
    ensures r * SCALE <= a * b < r * SCALE + SCALE
  {
    a * b / SCALE
  }

  /** The orders process: toFixed(8) under the library default ROUND_HALF_UP. */
  function MulHalfUp(a: nat, b: nat): (r: nat)
    ensures 2 * r * SCALE <= 2 * (a * b) + SCALE < 2 * r * SCALE + 2 * SCALE
  {
    (2 * (a * b) + SCALE) / (2 * SCALE)
  }

  /** What settlement takes from the buyer's locked balance: cost plus surplus refund. */
  function BuyerDeduction(limit: nat, price: nat, quantity: nat): nat
  {
    MulDown(price, quantity) + (if limit > price then MulDown(limit - price, quantity) else 0)
  }

  /** One execution of a buy order. */
  datatype Execution = Execution(price: nat, quantity: nat)

  function Quantity(): Execution -> int
  {
    (e: Execution) => e.quantity
  }

  function Deduction(limit: nat): Execution -> int
  {
    (e: Execution) => BuyerDeduction(limit, e.price, e.quantity)
  }

  predicate WithinLimit(executions: seq<Execution>, limit: nat)
  {
    forall i :: 0 <= i < |executions| ==> executions[i].price <= limit
  }

  /** One fill releases at least what settlement will take for it, and at most two units more. */
  lemma ReservationStep(limit: nat, price: nat, quantity: nat, remaining: nat)
    requires price <= limit && quantity <= remaining
    ensures BuyerDeduction(limit, price, quantity) + MulHalfUp(limit, remaining - quantity)
         <= MulHalfUp(limit, remaining)
    ensures MulHalfUp(limit, remaining)
         <= BuyerDeduction(limit, price, quantity) + MulHalfUp(limit, remaining - quantity) + 2
  {
    var cost, surplus, rest := price * quantity, (limit - price) * quantity, limit * (remaining - quantity);
    assert limit * remaining == cost + surplus + rest by {
      assert limit * quantity == (price + (limit - price)) * quantity == cost + surplus;
      assert limit * remaining == limit * (quantity + (remaining - quantity)) == limit * quantity + rest;
    }
    if limit == price {
      assert surplus == 0;
    }
  }

  /**
   Mixed rounding suffices: the settlements of any executions within the limit, rounded down, together with the
   half-up unlock of the cancelled rest never exceed the half-up lock. What is left over is at most two units an
   execution.
   */
  lemma {:induction false} MixedRoundingSuffices(limit: nat, executions: seq<Execution>, rest: nat)
    requires WithinLimit(executions, limit)
    ensures 0 <= Sum(executions, Quantity())
    ensures Sum(executions, Deduction(limit)) + MulHalfUp(limit, rest)
         <= MulHalfUp(limit, Sum(executions, Quantity()) + rest)
         <= Sum(executions, Deduction(limit)) + MulHalfUp(limit, rest) + 2 * |executions|
  {
    if executions != [] {
      var init, last := executions[..|executions| - 1], executions[|executions| - 1];
      MixedRoundingSuffices(limit, init, last.quantity + rest);
      ReservationStep(limit, last.price, last.quantity, last.quantity + rest);
    }
  }

  /** The dust bound is reached: this single execution strands exactly two units. */
  lemma DustBoundIsTight()
    ensures exists limit: nat, price: nat, quantity: nat ::
      price <= limit && MulHalfUp(limit, quantity) == BuyerDeduction(limit, price, quantity) + 2
  {
    var limit: nat, price: nat, quantity: nat := 150_000_000, 75_000_000, 1;
    assert MulHalfUp(limit, quantity) == 2 && BuyerDeduction(limit, price, quantity) == 0;
  }

  /** Settling half-up, as the orders process rounds, would take more than was locked. */
  lemma HalfUpSettlementWouldOverspend()
    ensures exists limit: nat, quantity: nat ::
      MulHalfUp(limit, quantity) + MulHalfUp(limit, quantity) > MulHalfUp(limit, quantity + quantity)
  {
    var limit: nat, quantity: nat := 1, 50_000_000;
    assert MulHalfUp(limit, quantity) + MulHalfUp(limit, quantity) > MulHalfUp(limit, quantity + quantity);
  }
}
