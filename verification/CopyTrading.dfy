/**
 Copy trading: how much of a master's trade a follower repeats, and the history that followers' positions are derived
 from. The calculator divides with the library's default of 20 decimals rounded half-up, then cuts to 8 decimals.
 */
module CopyTrading {
  import opened Wrappers
  import opened Domain
  import opened Sums

  const RATIO_ONE: nat := 100_000_000_000_000_000_000

  /** A quotient of two amounts in units of 1e-20. */
  function Ratio(a: nat, b: nat): (r: nat)
    requires b > 0
    ensures 2 * RATIO_ONE * a - b < 2 * r * b <= 2 * RATIO_ONE * a + b
  {
    (2 * RATIO_ONE * a + b) / (2 * b)
  }

  function CalculateBuyQuantity(masterQuantity: int, masterUsdt: int, followerUsdt: int): nat
  {
    if masterUsdt <= 0 || followerUsdt <= 0 || masterQuantity <= 0 then 0
    else masterQuantity * Ratio(followerUsdt, masterUsdt) / RATIO_ONE
  }

  /** Never more than the follower's own position, however large the master's share. */
  function CalculateSellQuantity(masterSell: int, masterBase: int, position: int): (r: nat)
    ensures r <= if position > 0 then position else 0
  {
    if position <= 0 || masterBase <= 0 || masterSell <= 0 then 0
    else
      var raw := position * Ratio(masterSell, masterBase);
      var capped := if raw <= position * RATIO_ONE then raw else position * RATIO_ONE;
      capped / RATIO_ONE
  }

  function CalculateSubPosition(bought: int, sold: int): nat
  {
    if bought - sold <= 0 then 0 else bought - sold
  }

  // ---------------------------------------------------------------------------------------------------------
  // The error of a copied buy
  // ---------------------------------------------------------------------------------------------------------

  /** The share in exact arithmetic. */
  function ExactQuantity(masterQuantity: nat, masterUsdt: nat, followerUsdt: nat): nat
    requires masterUsdt > 0
  {
    masterQuantity * followerUsdt / masterUsdt
  }

  /** How far a product with a rounded ratio strays, in common denominators. */
  lemma RatioError(q: nat, a: nat, b: nat, r: nat)
    requires b > 0 && r == Ratio(a, b)
    ensures 2 * RATIO_ONE * (q * a) - q * b <= 2 * (b * (q * r)) <= 2 * RATIO_ONE * (q * a) + q * b
  {
    var low, mid, high := 2 * RATIO_ONE * a - b, 2 * r * b, 2 * RATIO_ONE * a + b;
    assert q * low <= q * mid <= q * high;
    assert q * mid == 2 * (b * (q * r));
    assert q * low == 2 * RATIO_ONE * (q * a) - q * b && q * high == 2 * RATIO_ONE * (q * a) + q * b;
  }

  /** The bounds in plain numbers: scaled = b * product and floor = want * b. */
  lemma LinearBounds(scaled: int, floor: int, exact: int, span: int, b: int)
    requires floor <= exact < floor + b
    requires 2 * RATIO_ONE * exact - span <= 2 * scaled <= 2 * RATIO_ONE * exact + span
    ensures span < 2 * RATIO_ONE ==> scaled < RATIO_ONE * floor + RATIO_ONE * b
    ensures span < 2 * RATIO_ONE * b ==> scaled < RATIO_ONE * floor + 2 * (RATIO_ONE * b)
    ensures span < 2 * RATIO_ONE * b ==> scaled > RATIO_ONE * floor - RATIO_ONE * b
  {
  }

  /** Comparing b * product with a multiple of b decides the comparison of product. */
  lemma Unscale(b: nat, product: nat, k: int)
    requires b > 0
    ensures b * product < RATIO_ONE * (k * b) ==> product < RATIO_ONE * k
    ensures b * product > RATIO_ONE * (k * b) ==> product > RATIO_ONE * k
  {
    if product >= RATIO_ONE * k {
      assert b * product >= b * (RATIO_ONE * k);
    }
    if product <= RATIO_ONE * k {
      assert b * product <= b * (RATIO_ONE * k);
    }
    assert b * (RATIO_ONE * k) == RATIO_ONE * (k * b);
  }

  lemma {:induction false} FloorsApart(product: nat, exact: nat, span: nat, b: nat, got: nat, want: nat)
    requires b > 0 && got * RATIO_ONE <= product < got * RATIO_ONE + RATIO_ONE
    requires want * b <= exact < want * b + b
    requires 2 * RATIO_ONE * exact - span <= 2 * (b * product) <= 2 * RATIO_ONE * exact + span
    ensures span < 2 * RATIO_ONE * b ==> want - 1 <= got <= want + 1
    ensures span < 2 * RATIO_ONE ==> got <= want
  {
    LinearBounds(b * product, want * b, exact, span, b);
    Unscale(b, product, want + 1);
    Unscale(b, product, want + 2);
    Unscale(b, product, want - 1);
    assert (want + 1) * b == want * b + b && (want + 2) * b == want * b + 2 * b && (want - 1) * b == want * b - b;
  }

  /**
   The copied quantity is within one unit of the exact share for every master quantity below 2e20 units, and never above
   it when quantity times master balance stays below 2e20.
   */
  lemma {:induction false} BuyErrorBound(masterQuantity: nat, masterUsdt: nat, followerUsdt: nat)
    requires masterUsdt > 0
    ensures var exact := ExactQuantity(masterQuantity, masterUsdt, followerUsdt);
            var copied := CalculateBuyQuantity(masterQuantity, masterUsdt, followerUsdt);
            && (masterQuantity < 2 * RATIO_ONE ==> exact - 1 <= copied <= exact + 1)
            && (masterQuantity * masterUsdt < 2 * RATIO_ONE ==> copied <= exact)
  {
    if masterQuantity > 0 && followerUsdt > 0 {
      var r := Ratio(followerUsdt, masterUsdt);
      RatioError(masterQuantity, followerUsdt, masterUsdt, r);
      Floors(masterQuantity * r, RATIO_ONE);
      Floors(masterQuantity * followerUsdt, masterUsdt);
      FloorsApart(masterQuantity * r, masterQuantity * followerUsdt, masterQuantity * masterUsdt, masterUsdt,
                  masterQuantity * r / RATIO_ONE, masterQuantity * followerUsdt / masterUsdt);
      Spans(masterQuantity, masterUsdt);
    } else {
      Floors(0, masterUsdt);
      assert masterQuantity * followerUsdt == 0;
    }
  }

  lemma Floors(a: nat, b: nat)
    requires b > 0
    ensures 0 <= a / b && a / b * b <= a < a / b * b + b
  {
    assert a == a / b * b + a % b;
  }

  lemma Spans(q: nat, b: nat)
    requires b > 0
    ensures q < 2 * RATIO_ONE ==> q * b < 2 * RATIO_ONE * b
  {
  }

  /**
   A copied quantity stays within the exact share if and only if the rounding of the ratio, multiplied by the master's
   quantity, does not make up for what the share's own rounding down leaves. A caller can compute both sides.
   */
  lemma {:induction false} BuyWithinShareIff(masterQuantity: nat, masterUsdt: nat, followerUsdt: nat)
    requires masterUsdt > 0
    ensures CalculateBuyQuantity(masterQuantity, masterUsdt, followerUsdt)
            <= ExactQuantity(masterQuantity, masterUsdt, followerUsdt)
       <==> masterQuantity * (Ratio(followerUsdt, masterUsdt) * masterUsdt - RATIO_ONE * followerUsdt)
            < RATIO_ONE * (masterUsdt - masterQuantity * followerUsdt % masterUsdt)
  {
    hide Ratio, CalculateBuyQuantity, ExactQuantity;
    var q, m, f := masterQuantity, masterUsdt, followerUsdt;
    var r, exact := Ratio(f, m), ExactQuantity(q, m, f);
    CopiedIsQuotient(q, m, f);
    ExactHasRest(q, m, f);
    ShareInTotals(q, m, f, r, exact, q * f % m);
    QuotientAtMost(q * r, exact);
    ScaleBoth(m, q * r, exact + 1);
  }

  lemma CopiedIsQuotient(q: nat, m: nat, f: nat)
    requires m > 0
    ensures CalculateBuyQuantity(q, m, f) == q * Ratio(f, m) / RATIO_ONE
  {
    if q == 0 {
      assert q * Ratio(f, m) == 0;
    } else if f == 0 {
      assert Ratio(0, m) == m / (2 * m) == 0;
    }
  }

  lemma ExactHasRest(q: nat, m: nat, f: nat)
    requires m > 0
    ensures q * f == ExactQuantity(q, m, f) * m + q * f % m && 0 <= ExactQuantity(q, m, f)
  {
    Floors(q * f, m);
  }

  lemma ScaleBoth(b: nat, product: nat, k: int)
    requires b > 0
    ensures product < RATIO_ONE * k <==> b * product < RATIO_ONE * (k * b)
  {
    Unscale(b, product, k);
    UnscaleBack(b, product, k);
  }

  lemma QuotientAtMost(product: nat, want: nat)
    ensures product / RATIO_ONE <= want <==> product < RATIO_ONE * (want + 1)
  {
  }

  lemma UnscaleBack(b: nat, product: nat, k: int)
    requires b > 0
    ensures product < RATIO_ONE * k ==> b * product < RATIO_ONE * (k * b)
  {
    if product < RATIO_ONE * k {
      assert b * product < b * (RATIO_ONE * k);
      assert b * (RATIO_ONE * k) == RATIO_ONE * (k * b);
    }
  }

  /** The condition in common denominators. */
  lemma ShareInTotals(q: nat, m: nat, f: nat, r: nat, exact: nat, rest: nat)
    requires q * f == exact * m + rest
    ensures q * (r * m - RATIO_ONE * f) < RATIO_ONE * (m - rest) <==> m * (q * r) < RATIO_ONE * ((exact + 1) * m)
  {
    var scaled, share := m * (q * r), RATIO_ONE * (q * f);
    assert q * (r * m - RATIO_ONE * f) == scaled - share by {
      assert q * (r * m - RATIO_ONE * f) == q * (r * m) - q * (RATIO_ONE * f);
      assert q * (r * m) == scaled && q * (RATIO_ONE * f) == share;
    }
    assert (exact + 1) * m == exact * m + m;
    assert RATIO_ONE * (m - rest) == RATIO_ONE * m - RATIO_ONE * rest;
  }

  /**
   A master that buys 1.00000007 BTC with 50000.00000016 USDT makes a follower with 4931.51115481 USDT buy 0.09863023
   BTC, a unit more than its share.
   */
  lemma BuyCanExceedShare()
    ensures CalculateBuyQuantity(1_0000_0007, 50000_0000_0016, 4931_5111_5481) == 986_3023
    ensures ExactQuantity(1_0000_0007, 50000_0000_0016, 4931_5111_5481) == 986_3022
  {
    assert Ratio(4931_5111_5481, 50000_0000_0016)
        == (2 * RATIO_ONE * 4931_5111_5481 + 50000_0000_0016) / (2 * 50000_0000_0016);
  }

  /** A ratio of at least one is not rounded below one, and one of at most one not above. */
  lemma RatioAroundOne(a: nat, b: nat)
    requires b > 0
    ensures a >= b ==> Ratio(a, b) >= RATIO_ONE
    ensures a <= b ==> Ratio(a, b) <= RATIO_ONE
  {
    var r := Ratio(a, b);
    if r >= RATIO_ONE + 1 {
      ScaleUp(RATIO_ONE + 1, r, b);
    }
    if r <= RATIO_ONE - 1 {
      ScaleUp(r, RATIO_ONE - 1, b);
    }
    RatioTwice(r, a, b);
  }

  lemma ScaleUp(x: nat, y: nat, b: nat)
    requires x <= y
    ensures x * b <= y * b
  {
  }

  lemma RatioTwice(r: nat, a: nat, b: nat)
    requires b > 0 && r == Ratio(a, b)
    ensures 2 * RATIO_ONE * a - b < 2 * (r * b) <= 2 * RATIO_ONE * a + b
  {
    assert 2 * r * b == 2 * (r * b);
  }

  /**
   A master who sells everything, or more than its balance still shows, makes the follower sell its whole position; a
   master who sells a part makes it sell the same part, to within one unit, of positions below 2e20 units.
   */
  lemma SellErrorBound(masterSell: nat, masterBase: nat, position: nat)
    requires masterSell > 0 && masterBase > 0
    ensures var sold := CalculateSellQuantity(masterSell, masterBase, position);
            && (masterSell >= masterBase ==> sold == position)
            && (masterSell < masterBase && position < 2 * RATIO_ONE ==>
                  position * masterSell / masterBase - 1 <= sold <= position * masterSell / masterBase + 1)
  {
    var r := Ratio(masterSell, masterBase);
    RatioAroundOne(masterSell, masterBase);
    CapMeans(position, r);
    if masterSell < masterBase && position < 2 * RATIO_ONE {
      SharedPartBound(masterSell, masterBase, position, r);
    }
  }

  /** The cap takes hold exactly when the ratio reaches one. */
  lemma CapMeans(position: nat, r: nat)
    ensures (if position * r <= position * RATIO_ONE then position * r else position * RATIO_ONE) / RATIO_ONE
         == if r <= RATIO_ONE then position * r / RATIO_ONE else position
  {
    if r <= RATIO_ONE {
      assert position * r <= position * RATIO_ONE;
    } else {
      assert position * r >= position * RATIO_ONE;
    }
    assert position * RATIO_ONE / RATIO_ONE == position;
  }

  lemma SharedPartBound(sell: nat, base: nat, position: nat, r: nat)
    requires base > 0 && r == Ratio(sell, base) && position < 2 * RATIO_ONE
    ensures position * sell / base - 1 <= position * r / RATIO_ONE <= position * sell / base + 1
  {
    RatioError(position, sell, base, r);
    Floors(position * r, RATIO_ONE);
    Floors(position * sell, base);
    Spans(position, base);
    FloorsApart(position * r, position * sell, position * base, base, position * r / RATIO_ONE, position * sell / base);
  }

  // ---------------------------------------------------------------------------------------------------------
  // Risk guard
  // ---------------------------------------------------------------------------------------------------------

  const FULL_PERCENT: nat := 10_000_000_000

  /** Slippage counts 1e-8 of a percent. A buyer's limit is rounded up, a seller's down but never to zero. */
  function CalculateProtectedPrice(price: nat, slippage: nat, side: Side): (r: nat)
    ensures side == BUY ==>
              price <= r && (r - 1) * 10_000_000_000 < price * (10_000_000_000 + slippage) <= r * 10_000_000_000
    ensures side == SELL ==> 1 <= r && (1 <= price ==> r <= price)
    ensures side == SELL ==> price * (10_000_000_000 - slippage) < (r + 1) * 10_000_000_000
    ensures side == SELL && r > 1 ==> r * 10_000_000_000 <= price * (10_000_000_000 - slippage)
  {
    if side == BUY then (price * (FULL_PERCENT + slippage) + FULL_PERCENT - 1) / FULL_PERCENT
    else if price * (FULL_PERCENT - slippage) <= FULL_PERCENT then 1
    else
      assert price * (FULL_PERCENT - slippage) <= price * FULL_PERCENT;
      price * (FULL_PERCENT - slippage) / FULL_PERCENT
  }

  function MinLot(pair: Pair): nat
  {
    if pair.BTC_USDT? then 10_000 else 100_000
  }

  // ---------------------------------------------------------------------------------------------------------
  // Subscriptions and history
  // ---------------------------------------------------------------------------------------------------------

  datatype CopyStatus = COMPLETED | FAILED | SKIPPED

  datatype Subscription = Subscription(id: nat, follower: UserId, master: nat, allocation: int, slippage: nat,
                                       active: bool)

  /** A row of copy_orders_history: unique on (subscription, trade). */
  datatype HistoryRow = HistoryRow(subscription: nat, trade: nat, pair: Pair, side: Side, quantity: nat, price: nat,
                                   status: CopyStatus)

  /** One side of a master's trade. */
  datatype SideTask = SideTask(master: nat, masterUser: UserId, side: Side, price: nat, quantity: nat, pair: Pair,
                               trade: nat)

  /**
   What becomes of a createOrder call under a new key: the order is stored; or the key's record is inserted and the
   create fails after that; or the call fails before it has a record, because it never arrives or is turned away.
   */
  datatype Verdict = ACCEPTED | REFUSED | UNRECORDED

  /**
   How one subscriber's turn went outside this service: its lock was busy; or createOrder was called, and its answer
   arrived or not; or the process died after that call, before writing the history.
   */
  datatype Outcome = Busy | Answered(verdict: Verdict, acknowledged: bool) | Died(verdict: Verdict)

  /** An order that the orders service stored for a follower: one a trade and follower, the parts of its key. */
  datatype CopiedOrder = CopiedOrder(trade: nat, follower: UserId, subscription: nat, pair: Pair, side: Side,
                                     quantity: nat)

  /** The parts of the idempotency key of a copied order. */
  datatype CopyKey = CopyKey(trade: nat, follower: UserId)

  /** The history of this service; and, of the orders service, the copied orders and the keys whose create failed. */
  datatype Copies = Copies(rows: seq<HistoryRow>, orders: seq<CopiedOrder>, refused: set<CopyKey>)

  const NOTHING := Copies([], [], {})

  /** Completed quantity of a subscription on a pair and side. */
  function Completed(subscription: nat, pair: Pair, side: Side): HistoryRow -> int
  {
    (r: HistoryRow) =>
      if r.subscription == subscription && r.pair == pair && r.side == side && r.status == COMPLETED then r.quantity
      else 0
  }

  /** Accepted quantity of a subscription on a pair and side. */
  function Accepted(subscription: nat, pair: Pair, side: Side): CopiedOrder -> int
  {
    (o: CopiedOrder) => if o.subscription == subscription && o.pair == pair && o.side == side then o.quantity else 0
  }

  predicate HasRow(rows: seq<HistoryRow>, subscription: nat, trade: nat)
  {
    exists i :: 0 <= i < |rows| && rows[i].subscription == subscription && rows[i].trade == trade
  }

  predicate HasOrder(orders: seq<CopiedOrder>, trade: nat, follower: UserId)
  {
    exists i :: 0 <= i < |orders| && orders[i].trade == trade && orders[i].follower == follower
  }

  /** Insert with on-conflict-do-nothing. */
  function Inserted(rows: seq<HistoryRow>, row: HistoryRow): seq<HistoryRow>
  {
    if HasRow(rows, row.subscription, row.trade) then rows else rows + [row]
  }

  /** The orders service has a record of the key, with an order or of a failure. */
  predicate Spent(orders: seq<CopiedOrder>, refused: set<CopyKey>, trade: nat, follower: UserId)
  {
    HasOrder(orders, trade, follower) || CopyKey(trade, follower) in refused
  }

  /** createOrder: a key that has an order is answered with it, one whose create failed is refused for good. */
  function Placed(orders: seq<CopiedOrder>, refused: set<CopyKey>, order: CopiedOrder, verdict: Verdict)
    : seq<CopiedOrder>
  {
    if verdict == ACCEPTED && !Spent(orders, refused, order.trade, order.follower) then orders + [order] else orders
  }

  function Failed(orders: seq<CopiedOrder>, refused: set<CopyKey>, order: CopiedOrder, verdict: Verdict): set<CopyKey>
  {
    if verdict == REFUSED && !Spent(orders, refused, order.trade, order.follower)
    then refused + {CopyKey(order.trade, order.follower)} else refused
  }

  /** A seller's size comes from its own history, a buyer's from its allocation. */
  function TargetQuantity(rows: seq<HistoryRow>, s: Subscription, task: SideTask, masterBalance: int): nat
  {
    if task.side == BUY then CalculateBuyQuantity(task.quantity, masterBalance, s.allocation)
    else
      CalculateSellQuantity(task.quantity, masterBalance,
                            CalculateSubPosition(Sum(rows, Completed(s.id, task.pair, BUY)),
                                                 Sum(rows, Completed(s.id, task.pair, SELL))))
  }

  /** The row of a turn that is too small, or whose call was answered, with an order or an error. */
  function RowFor(s: Subscription, task: SideTask, q: nat, ok: bool): HistoryRow
  {
    if q < MinLot(task.pair) then HistoryRow(s.id, task.trade, task.pair, task.side, q, task.price, SKIPPED)
    else
      HistoryRow(s.id, task.trade, task.pair, task.side, q, CalculateProtectedPrice(task.price, s.slippage, task.side),
                 if ok then COMPLETED else FAILED)
  }

  datatype Attempt = Attempt(subscription: Subscription, task: SideTask, masterBalance: int, outcome: Outcome)

  function OrderOf(a: Attempt, q: nat): CopiedOrder
  {
    CopiedOrder(a.task.trade, a.subscription.follower, a.subscription.id, a.task.pair, a.task.side, q)
  }

  function TargetOf(c: Copies, a: Attempt): nat
  {
    TargetQuantity(c.rows, a.subscription, a.task, a.masterBalance)
  }

  /** The turn gets as far as calling createOrder. */
  predicate Calls(c: Copies, a: Attempt)
  {
    !a.outcome.Busy? && TargetOf(c, a) >= MinLot(a.task.pair)
  }

  /** The turn's call finds its key new and is accepted. */
  predicate Places(c: Copies, a: Attempt)
  {
    && Calls(c, a) && a.outcome.verdict == ACCEPTED
    && !Spent(c.orders, c.refused, a.task.trade, a.subscription.follower)
  }

  /** The orders service after a turn that calls it. */
  function Called(c: Copies, a: Attempt): Copies
    requires !a.outcome.Busy?
  {
    var order := OrderOf(a, TargetOf(c, a));
    c.(orders := Placed(c.orders, c.refused, order, a.outcome.verdict),
       refused := Failed(c.orders, c.refused, order, a.outcome.verdict))
  }

  /** One subscriber's turn. Its row is COMPLETED when an order is stored under its key and the answer arrived. */
  function Replicated(c: Copies, a: Attempt): Copies
  {
    if a.outcome.Busy? then c
    else
      var q := TargetOf(c, a);
      if q < MinLot(a.task.pair) then
        if a.outcome.Died? then c else c.(rows := Inserted(c.rows, RowFor(a.subscription, a.task, q, false)))
      else
        var d := Called(c, a);
        if a.outcome.Died? then d
        else
          var ok := && a.outcome.acknowledged && a.outcome.verdict != UNRECORDED
                    && HasOrder(d.orders, a.task.trade, a.subscription.follower);
          d.(rows := Inserted(c.rows, RowFor(a.subscription, a.task, q, ok)))
  }

  function ReplicatedAll(c: Copies, attempts: seq<Attempt>): Copies
  {
    if attempts == [] then c
    else Replicated(ReplicatedAll(c, attempts[..|attempts| - 1]), attempts[|attempts| - 1])
  }

  ghost predicate NotOversold(rows: seq<HistoryRow>)
  {
    forall s: nat, pair: Pair :: Sum(rows, Completed(s, pair, SELL)) <= Sum(rows, Completed(s, pair, BUY))
  }

  predicate OneRowPerTrade(rows: seq<HistoryRow>)
  {
    forall i, j :: 0 <= i < j < |rows| ==> rows[i].subscription != rows[j].subscription || rows[i].trade != rows[j].trade
  }

  lemma {:induction false} SellFitsPosition(rows: seq<HistoryRow>, s: Subscription, task: SideTask, masterBalance: int)
    requires NotOversold(rows) && task.side == SELL
    ensures TargetQuantity(rows, s, task, masterBalance)
         <= Sum(rows, Completed(s.id, task.pair, BUY)) - Sum(rows, Completed(s.id, task.pair, SELL))
  {
    assert Sum(rows, Completed(s.id, task.pair, SELL)) <= Sum(rows, Completed(s.id, task.pair, BUY));
  }

  lemma {:induction false} MoreRowsNotOversold(rows: seq<HistoryRow>, a: Attempt, ok: bool)
    requires NotOversold(rows)
    ensures NotOversold(rows + [RowFor(a.subscription, a.task,
                                       TargetQuantity(rows, a.subscription, a.task, a.masterBalance), ok)])
  {
    var row := RowFor(a.subscription, a.task, TargetQuantity(rows, a.subscription, a.task, a.masterBalance), ok);
    if a.task.side == SELL {
      SellFitsPosition(rows, a.subscription, a.task, a.masterBalance);
    }
    forall s: nat, pair: Pair
      ensures Sum(rows + [row], Completed(s, pair, SELL)) <= Sum(rows + [row], Completed(s, pair, BUY))
    {
      SumAppend(rows, row, Completed(s, pair, SELL));
      SumAppend(rows, row, Completed(s, pair, BUY));
      assert Sum(rows, Completed(s, pair, SELL)) <= Sum(rows, Completed(s, pair, BUY));
    }
  }

  lemma ReplicationKeepsPositions(c: Copies, a: Attempt)
    requires NotOversold(c.rows) && OneRowPerTrade(c.rows)
    ensures NotOversold(Replicated(c, a).rows) && OneRowPerTrade(Replicated(c, a).rows)
  {
    hide NotOversold, TargetQuantity;
    MoreRowsNotOversold(c.rows, a, true);
    MoreRowsNotOversold(c.rows, a, false);
  }

  /**
   Over any sequence of replicated trades, redelivered ones included and whatever becomes of the orders, no subscription
   has more completed sells of a pair than completed buys, and a master trade has at most one row per subscription.
   */
  lemma {:induction false} FollowersNeverOversell(attempts: seq<Attempt>)
    ensures NotOversold(ReplicatedAll(NOTHING, attempts).rows)
    ensures OneRowPerTrade(ReplicatedAll(NOTHING, attempts).rows)
  {
    if attempts != [] {
      FollowersNeverOversell(attempts[..|attempts| - 1]);
      ReplicationKeepsPositions(ReplicatedAll(NOTHING, attempts[..|attempts| - 1]), attempts[|attempts| - 1]);
    }
  }

  /**
   A turn for a trade that already has its row leaves the history alone. It places an order if and only if the orders
   service has no record of the key, the target is no dust by now, and the order is accepted: a copy that was skipped, or
   whose call left no record, can still come; one that failed after its record was inserted cannot.
   */
  lemma RedeliveryPlacesIff(c: Copies, a: Attempt)
    requires HasRow(c.rows, a.subscription.id, a.task.trade)
    ensures Replicated(c, a).rows == c.rows
    ensures Replicated(c, a).orders != c.orders
       <==> !a.outcome.Busy? && TargetOf(c, a) >= MinLot(a.task.pair) && a.outcome.verdict == ACCEPTED
            && !HasOrder(c.orders, a.task.trade, a.subscription.follower)
            && CopyKey(a.task.trade, a.subscription.follower) !in c.refused
  {
    if !a.outcome.Busy? {
      assert |c.orders + [OrderOf(a, TargetOf(c, a))]| == |c.orders| + 1;
    }
  }

  function KeyOf(a: Attempt): CopyKey
  {
    CopyKey(a.task.trade, a.subscription.follower)
  }

  /** In a run of turns, the one at k calls createOrder under the key, and the call gets as far as a record. */
  predicate CallsAt(attempts: seq<Attempt>, k: nat, key: CopyKey)
    requires k < |attempts|
  {
    Calls(ReplicatedAll(NOTHING, attempts[..k]), attempts[k]) && attempts[k].outcome.verdict != UNRECORDED
    && KeyOf(attempts[k]) == key
  }

  predicate CallsFirstAt(attempts: seq<Attempt>, k: nat, key: CopyKey)
    requires k < |attempts|
  {
    CallsAt(attempts, k, key) && forall j: nat :: j < k ==> !CallsAt(attempts, j, key)
  }

  predicate SpentIn(c: Copies, key: CopyKey)
  {
    Spent(c.orders, c.refused, key.trade, key.follower)
  }

  predicate OneOrderPerKey(orders: seq<CopiedOrder>)
  {
    forall i, j :: 0 <= i < j < |orders| ==>
      orders[i].trade != orders[j].trade || orders[i].follower != orders[j].follower
  }

  /** What one turn does to a key. */
  lemma {:induction false} TurnOnKey(c: Copies, a: Attempt, key: CopyKey)
    ensures var d := Replicated(c, a);
            && (SpentIn(d, key)
                <==> SpentIn(c, key) || (Calls(c, a) && a.outcome.verdict != UNRECORDED && KeyOf(a) == key))
            && (HasOrder(d.orders, key.trade, key.follower)
                <==> HasOrder(c.orders, key.trade, key.follower) || (Places(c, a) && KeyOf(a) == key))
            && (OneOrderPerKey(c.orders) ==> OneOrderPerKey(d.orders))
  {
    hide TargetQuantity;
    if Places(c, a) {
      OrderAdded(c.orders, OrderOf(a, TargetOf(c, a)), key);
    }
  }

  lemma {:induction false} OrderAdded(orders: seq<CopiedOrder>, o: CopiedOrder, key: CopyKey)
    ensures HasOrder(orders + [o], key.trade, key.follower)
       <==> HasOrder(orders, key.trade, key.follower) || (o.trade == key.trade && o.follower == key.follower)
  {
    var more := orders + [o];
    assert more[|orders|] == o && forall i :: 0 <= i < |orders| ==> more[i] == orders[i];
    if HasOrder(orders, key.trade, key.follower) {
      var i :| 0 <= i < |orders| && orders[i].trade == key.trade && orders[i].follower == key.follower;
      assert more[i] == orders[i];
    }
  }

  /** Whether a call of a run comes first does not depend on the turns after it. */
  lemma {:induction false} CallsOfRun(attempts: seq<Attempt>, key: CopyKey)
    requires attempts != []
    ensures var last := |attempts| - 1;
            && (forall k: nat :: k < last ==>
                  (CallsAt(attempts, k, key) <==> CallsAt(attempts[..last], k, key))
                  && (CallsFirstAt(attempts, k, key) <==> CallsFirstAt(attempts[..last], k, key)))
            && (CallsFirstAt(attempts, last, key)
                <==> CallsAt(attempts, last, key) && forall k: nat :: k < last ==> !CallsAt(attempts[..last], k, key))
  {
    hide ReplicatedAll, Calls;
    var last := |attempts| - 1;
    forall k: nat | k < last ensures CallsAt(attempts, k, key) <==> CallsAt(attempts[..last], k, key) {
      assert attempts[..k] == attempts[..last][..k];
    }
  }

  /**
   Over any run of turns, redelivered ones and several subscriptions of a follower included, the first call under a key
   that gets as far as a record decides the key for good: there is an order of the key if and only if that call was
   accepted, and never a second one.
   */
  lemma {:induction false} FirstCallDecides(attempts: seq<Attempt>, key: CopyKey)
    ensures var c := ReplicatedAll(NOTHING, attempts);
            && OneOrderPerKey(c.orders)
            && (SpentIn(c, key) <==> exists k: nat :: k < |attempts| && CallsAt(attempts, k, key))
            && (HasOrder(c.orders, key.trade, key.follower)
                <==> exists k: nat :: k < |attempts| && CallsFirstAt(attempts, k, key)
                                      && attempts[k].outcome.verdict == ACCEPTED)
  {
    if attempts != [] {
      hide Replicated, TargetQuantity, OneOrderPerKey, HasOrder, CallsFirstAt;
      var last := |attempts| - 1;
      FirstCallDecides(attempts[..last], key);
      TurnOnKey(ReplicatedAll(NOTHING, attempts[..last]), attempts[last], key);
      CallsOfRun(attempts, key);
    }
  }

  /** What one turn adds to the history and to the orders. */
  function NewRows(c: Copies, a: Attempt): (r: seq<HistoryRow>)
    ensures Replicated(c, a).rows == c.rows + r && |r| <= 1
    ensures forall i :: 0 <= i < |r| ==> r[i].subscription == a.subscription.id && r[i].trade == a.task.trade
  {
    if |Replicated(c, a).rows| == |c.rows| then [] else [Replicated(c, a).rows[|c.rows|]]
  }

  function NewOrders(c: Copies, a: Attempt): (r: seq<CopiedOrder>)
    ensures Replicated(c, a).orders == c.orders + r && |r| <= 1
    ensures forall i :: 0 <= i < |r| ==>
              r[i].subscription == a.subscription.id && r[i].follower == a.subscription.follower
  {
    if |Replicated(c, a).orders| == |c.orders| then [] else [Replicated(c, a).orders[|c.orders|]]
  }

  function NewRefusals(c: Copies, a: Attempt): (r: set<CopyKey>)
    ensures Replicated(c, a).refused == c.refused + r
    ensures forall k :: k in r ==> k.follower == a.subscription.follower
  {
    Replicated(c, a).refused - c.refused
  }

  /** A turn of one subscription adds the same whether or not a turn of another one, of another follower, came first. */
  lemma {:induction false} TurnIgnoresOthers(c: Copies, a: Attempt, b: Attempt)
    requires a.subscription.id != b.subscription.id && a.subscription.follower != b.subscription.follower
    ensures NewRows(Replicated(c, b), a) == NewRows(c, a) && NewOrders(Replicated(c, b), a) == NewOrders(c, a)
    ensures NewRefusals(Replicated(c, b), a) == NewRefusals(c, a)
  {
    hide Replicated;
    var d, s, t := Replicated(c, b), a.subscription.id, a.task.trade;
    OtherRows(c.rows, NewRows(c, b), s, t, a.task.pair);
    OtherOrders(c.orders, NewOrders(c, b), t, a.subscription.follower);
    var others := NewRefusals(c, b);
    SameAdditions(c, d, a);
  }

  lemma {:induction false} OtherRows(rows: seq<HistoryRow>, more: seq<HistoryRow>, s: nat, t: nat, pair: Pair)
    requires |more| <= 1 && forall i :: 0 <= i < |more| ==> more[i].subscription != s
    ensures HasRow(rows + more, s, t) <==> HasRow(rows, s, t)
    ensures forall side: Side :: Sum(rows + more, Completed(s, pair, side)) == Sum(rows, Completed(s, pair, side))
  {
    var all := rows + more;
    if HasRow(rows, s, t) {
      var i :| 0 <= i < |rows| && rows[i].subscription == s && rows[i].trade == t;
      assert all[i] == rows[i];
    }
    forall side: Side ensures Sum(all, Completed(s, pair, side)) == Sum(rows, Completed(s, pair, side)) {
      if |more| == 1 {
        assert more == [more[0]];
        SumAppend(rows, more[0], Completed(s, pair, side));
      } else {
        assert all == rows;
      }
    }
  }

  lemma {:induction false} OtherOrders(orders: seq<CopiedOrder>, more: seq<CopiedOrder>, t: nat, follower: UserId)
    requires forall i :: 0 <= i < |more| ==> more[i].follower != follower
    ensures HasOrder(orders + more, t, follower) <==> HasOrder(orders, t, follower)
  {
    var all := orders + more;
    if HasOrder(orders, t, follower) {
      var i :| 0 <= i < |orders| && orders[i].trade == t && orders[i].follower == follower;
      assert all[i] == orders[i];
    }
  }

  /** A turn looks at its own subscription's rows and at its own key only. */
  lemma {:induction false} SameAdditions(c: Copies, d: Copies, a: Attempt)
    requires HasRow(d.rows, a.subscription.id, a.task.trade) <==> HasRow(c.rows, a.subscription.id, a.task.trade)
    requires HasOrder(d.orders, a.task.trade, a.subscription.follower)
        <==> HasOrder(c.orders, a.task.trade, a.subscription.follower)
    requires CopyKey(a.task.trade, a.subscription.follower) in d.refused
        <==> CopyKey(a.task.trade, a.subscription.follower) in c.refused
    requires forall side: Side :: Sum(d.rows, Completed(a.subscription.id, a.task.pair, side))
                               == Sum(c.rows, Completed(a.subscription.id, a.task.pair, side))
    ensures NewRows(d, a) == NewRows(c, a) && NewOrders(d, a) == NewOrders(c, a)
    ensures NewRefusals(d, a) == NewRefusals(c, a)
  {
    hide Replicated;
    assert TargetOf(d, a) == TargetOf(c, a);
    SameTargetSameAdditions(c, d, a);
  }

  lemma {:induction false} SameTargetSameAdditions(c: Copies, d: Copies, a: Attempt)
    requires HasRow(d.rows, a.subscription.id, a.task.trade) <==> HasRow(c.rows, a.subscription.id, a.task.trade)
    requires HasOrder(d.orders, a.task.trade, a.subscription.follower)
        <==> HasOrder(c.orders, a.task.trade, a.subscription.follower)
    requires KeyOf(a) in d.refused <==> KeyOf(a) in c.refused
    requires TargetOf(d, a) == TargetOf(c, a)
    ensures NewRows(d, a) == NewRows(c, a) && NewOrders(d, a) == NewOrders(c, a)
    ensures NewRefusals(d, a) == NewRefusals(c, a)
  {
    hide TargetQuantity, RowFor, HasRow, HasOrder;
    NewOrderPlaced(c.orders, OrderOf(a, TargetOf(c, a)));
    NewOrderPlaced(d.orders, OrderOf(a, TargetOf(c, a)));
  }

  lemma {:induction false} NewOrderPlaced(orders: seq<CopiedOrder>, o: CopiedOrder)
    ensures HasOrder(orders + [o], o.trade, o.follower)
  {
    assert (orders + [o])[|orders|] == o;
  }

  /** The turns of different followers commute: the order in which a batch runs them only orders the rows. */
  lemma {:induction false} TurnsCommute(c: Copies, a: Attempt, b: Attempt)
    requires a.subscription.id != b.subscription.id && a.subscription.follower != b.subscription.follower
    ensures multiset(Replicated(Replicated(c, a), b).rows) == multiset(Replicated(Replicated(c, b), a).rows)
    ensures multiset(Replicated(Replicated(c, a), b).orders) == multiset(Replicated(Replicated(c, b), a).orders)
    ensures Replicated(Replicated(c, a), b).refused == Replicated(Replicated(c, b), a).refused
  {
    hide Replicated;
    TurnIgnoresOthers(c, a, b);
    TurnIgnoresOthers(c, b, a);
    assert Replicated(Replicated(c, a), b).rows == c.rows + NewRows(c, a) + NewRows(c, b);
    assert Replicated(Replicated(c, b), a).rows == c.rows + NewRows(c, b) + NewRows(c, a);
    assert Replicated(Replicated(c, a), b).orders == c.orders + NewOrders(c, a) + NewOrders(c, b);
    assert Replicated(Replicated(c, b), a).orders == c.orders + NewOrders(c, b) + NewOrders(c, a);
  }

  // ---------------------------------------------------------------------------------------------------------
  // Do accepted sells stay within accepted buys?
  // ---------------------------------------------------------------------------------------------------------

  /**
   What may happen: an accepted order goes unrecorded, because its answer is lost or the process dies; a trade is
   delivered again to a subscription that has its row; two subscriptions of one follower copy the same trade.
   */
  datatype Environment = Environment(unrecorded: bool, repeats: bool, sharedKeys: bool)

  predicate Possible(env: Environment, c: Copies, a: Attempt)
  {
    && (env.unrecorded || !(Places(c, a) && (a.outcome.Died? || !a.outcome.acknowledged)))
    && (env.repeats || !HasRow(c.rows, a.subscription.id, a.task.trade))
    && (env.sharedKeys || forall i :: 0 <= i < |c.orders| && c.orders[i].trade == a.task.trade
                                      && c.orders[i].follower == a.subscription.follower ==>
                                        c.orders[i].subscription == a.subscription.id)
  }

  /** A turn that cannot happen in the environment leaves everything as it is. */
  function Turn(env: Environment, c: Copies, a: Attempt): Copies
  {
    if Possible(env, c, a) then Replicated(c, a) else c
  }

  function Run(env: Environment, attempts: seq<Attempt>): Copies
  {
    if attempts == [] then NOTHING else Turn(env, Run(env, attempts[..|attempts| - 1]), attempts[|attempts| - 1])
  }

  ghost predicate OrdersBacked(orders: seq<CopiedOrder>)
  {
    forall s: nat, pair: Pair :: Sum(orders, Accepted(s, pair, SELL)) <= Sum(orders, Accepted(s, pair, BUY))
  }

  ghost predicate AlwaysBacked(env: Environment)
  {
    forall attempts: seq<Attempt> :: OrdersBacked(Run(env, attempts).orders)
  }

  /** The history is what was accepted: the same sums, and a row for every order. */
  ghost predicate Faithful(c: Copies)
  {
    && (forall s: nat, pair: Pair, side: Side ::
          Sum(c.orders, Accepted(s, pair, side)) == Sum(c.rows, Completed(s, pair, side)))
    && (forall i :: 0 <= i < |c.orders| ==> HasRow(c.rows, c.orders[i].subscription, c.orders[i].trade))
  }

  lemma {:induction false} AddedRow(rows: seq<HistoryRow>, row: HistoryRow, subscription: nat, trade: nat)
    requires HasRow(rows, subscription, trade) || (row.subscription == subscription && row.trade == trade)
    ensures HasRow(rows + [row], subscription, trade)
  {
    var more := rows + [row];
    if HasRow(rows, subscription, trade) {
      var i :| 0 <= i < |rows| && rows[i].subscription == subscription && rows[i].trade == trade;
      assert more[i] == rows[i];
    } else {
      assert more[|rows|] == row;
    }
  }

  /** One new row, and one new order of the same quantity exactly if the row is COMPLETED. */
  lemma {:induction false} FaithfulMore(c: Copies, row: HistoryRow, orders: seq<CopiedOrder>, o: CopiedOrder)
    requires Faithful(c) && orders == (if row.status == COMPLETED then c.orders + [o] else c.orders)
    requires o.subscription == row.subscription && o.trade == row.trade && o.pair == row.pair && o.side == row.side
    requires o.quantity == row.quantity
    ensures Faithful(c.(rows := c.rows + [row], orders := orders))
  {
    forall s: nat, pair: Pair, side: Side
      ensures Sum(orders, Accepted(s, pair, side)) == Sum(c.rows + [row], Completed(s, pair, side))
    {
      SumAppend(c.rows, row, Completed(s, pair, side));
      SumAppend(c.orders, o, Accepted(s, pair, side));
    }
    forall i | 0 <= i < |orders| ensures HasRow(c.rows + [row], orders[i].subscription, orders[i].trade) {
      AddedRow(c.rows, row, orders[i].subscription, orders[i].trade);
    }
  }

  lemma {:induction false} TurnKeepsFaithful(env: Environment, c: Copies, a: Attempt)
    requires !env.unrecorded && !env.repeats && !env.sharedKeys && Faithful(c)
    ensures Faithful(Turn(env, c, a))
  {
    hide Faithful, TargetQuantity;
    if Possible(env, c, a) && a.outcome.Answered? {
      NoOrderYet(env, c, a);
      var q := TargetOf(c, a);
      NewOrderPlaced(c.orders, OrderOf(a, q));
      var row, orders := RowFor(a.subscription, a.task, q, Places(c, a)), Turn(env, c, a).orders;
      FaithfulMore(c, row, orders, OrderOf(a, q));
      FaithfulIgnoresRefusals(c.(rows := c.rows + [row], orders := orders), Turn(env, c, a));
    } else {
      FaithfulIgnoresRefusals(c, Turn(env, c, a));
    }
  }

  lemma FaithfulIgnoresRefusals(c: Copies, d: Copies)
    requires Faithful(c) && d.rows == c.rows && d.orders == c.orders
    ensures Faithful(d)
  {
  }

  /** Without repeats and shared keys a turn that may happen finds no order under its key. */
  lemma {:induction false} NoOrderYet(env: Environment, c: Copies, a: Attempt)
    requires !env.repeats && !env.sharedKeys && Faithful(c) && Possible(env, c, a)
    ensures !HasOrder(c.orders, a.task.trade, a.subscription.follower)
    ensures !HasRow(c.rows, a.subscription.id, a.task.trade)
  {
    forall i | 0 <= i < |c.orders|
      ensures c.orders[i].trade != a.task.trade || c.orders[i].follower != a.subscription.follower
    {
      assert HasRow(c.rows, c.orders[i].subscription, c.orders[i].trade);
    }
  }

  lemma {:induction false} RunIsFaithful(env: Environment, attempts: seq<Attempt>)
    requires !env.unrecorded && !env.repeats && !env.sharedKeys
    ensures Faithful(Run(env, attempts))
    ensures NotOversold(Run(env, attempts).rows) && OneRowPerTrade(Run(env, attempts).rows)
  {
    if attempts != [] {
      hide Turn, Faithful, NotOversold, OneRowPerTrade;
      var init, a := attempts[..|attempts| - 1], attempts[|attempts| - 1];
      RunIsFaithful(env, init);
      TurnKeepsFaithful(env, Run(env, init), a);
      ReplicationKeepsPositions(Run(env, init), a);
      TurnIsReplication(env, Run(env, init), a);
    }
  }

  lemma TurnIsReplication(env: Environment, c: Copies, a: Attempt)
    ensures Turn(env, c, a) == Replicated(c, a) || Turn(env, c, a) == c
  {
  }

  // Failing runs: one lot is bought, and sold twice.

  const LOT: nat := 10_000
  const YES := Answered(ACCEPTED, true)
  const FIRST := Subscription(0, 0, 0, 1, 0, true)
  const SECOND := Subscription(1, 0, 0, 1, 0, true)

  /** A copy of the whole position of the master, which the follower mirrors one to one. */
  function Copy(s: Subscription, trade: nat, side: Side, outcome: Outcome): Attempt
  {
    Attempt(s, SideTask(0, 9, side, 1, if side == BUY then LOT else 1, BTC_USDT, trade), 1, outcome)
  }

  lemma OneToOne(position: nat)
    ensures CalculateBuyQuantity(LOT, 1, 1) == LOT && CalculateSellQuantity(1, 1, position) == position
  {
    assert Ratio(1, 1) == RATIO_ONE;
    assert position * RATIO_ONE / RATIO_ONE == position;
  }

  lemma RunMore(env: Environment, attempts: seq<Attempt>, a: Attempt)
    ensures Run(env, attempts + [a]) == Turn(env, Run(env, attempts), a)
  {
    assert (attempts + [a])[..|attempts|] == attempts;
  }

  /** What the history says that a subscription still holds. */
  function Position(c: Copies, subscription: nat): int
  {
    Sum(c.rows, Completed(subscription, BTC_USDT, BUY)) - Sum(c.rows, Completed(subscription, BTC_USDT, SELL))
  }

  function AcceptedOn(c: Copies, subscription: nat, side: Side): int
  {
    Sum(c.orders, Accepted(subscription, BTC_USDT, side))
  }

  /** Whether a call under a key ends with an order, given that none or one was there. */
  predicate Succeeds(c: Copies, trade: nat, outcome: Outcome)
    requires outcome.Answered?
  {
    && outcome.acknowledged && outcome.verdict != UNRECORDED
    && (outcome.verdict == ACCEPTED || HasOrder(c.orders, trade, 0))
  }

  lemma {:induction false} LotTurn(env: Environment, c: Copies, s: Subscription, trade: nat, side: Side,
                                   outcome: Outcome)
    requires s == FIRST || s == SECOND
    requires Possible(env, c, Copy(s, trade, side, outcome)) && outcome.Answered? && outcome.verdict != REFUSED
    requires side == SELL ==> Position(c, s.id) == LOT
    requires c.refused == {}
    ensures var d := Turn(env, c, Copy(s, trade, side, outcome));
            var row := HistoryRow(s.id, trade, BTC_USDT, side, LOT, CalculateProtectedPrice(1, 0, side),
                                  if Succeeds(c, trade, outcome) then COMPLETED else FAILED);
            && d.orders == (if outcome.verdict == ACCEPTED && !HasOrder(c.orders, trade, 0)
                            then c.orders + [CopiedOrder(trade, 0, s.id, BTC_USDT, side, LOT)] else c.orders)
            && d.rows == (if HasRow(c.rows, s.id, trade) then c.rows else c.rows + [row])
            && d.refused == {}
  {
    var a := Copy(s, trade, side, outcome);
    OneToOne(LOT);
    assert TargetOf(c, a) == LOT;
    NewOrderPlaced(c.orders, OrderOf(a, LOT));
  }

  lemma {:induction false} MoreRows(c: Copies, row: HistoryRow, s: nat, t: nat)
    ensures HasRow(c.rows + [row], s, t) <==> HasRow(c.rows, s, t) || (row.subscription == s && row.trade == t)
  {
    if HasRow(c.rows, s, t) || (row.subscription == s && row.trade == t) {
      AddedRow(c.rows, row, s, t);
    } else {
      assert forall i :: 0 <= i < |c.rows| ==> (c.rows + [row])[i] == c.rows[i];
    }
  }

  /** The position after one more row. */
  lemma {:induction false} MorePosition(c: Copies, d: Copies, row: HistoryRow, u: nat)
    requires d.rows == c.rows + [row] && row.pair == BTC_USDT && row.quantity == LOT
    ensures Position(d, u)
         == Position(c, u) + (if row.subscription != u || row.status != COMPLETED then 0
                              else if row.side == BUY then LOT else 0 - LOT)
  {
    SumAppend(c.rows, row, Completed(u, BTC_USDT, BUY));
    SumAppend(c.rows, row, Completed(u, BTC_USDT, SELL));
  }

  lemma {:induction false} MoreAccepted(c: Copies, d: Copies, o: CopiedOrder, u: nat, x: Side)
    requires d.orders == c.orders + [o] && o.pair == BTC_USDT && o.quantity == LOT
    ensures AcceptedOn(d, u, x) == AcceptedOn(c, u, x) + (if o.subscription == u && o.side == x then LOT else 0)
  {
    SumAppend(c.orders, o, Accepted(u, BTC_USDT, x));
  }

  /** The sums and keys after a turn. */
  ghost predicate Tallied(c: Copies, d: Copies, s: nat, trade: nat, side: Side, recorded: bool, placed: bool)
  {
    && Position(d, s) == Position(c, s) + (if !recorded then 0 else if side == BUY then LOT else 0 - LOT)
    && (forall u: nat :: u != s ==> Position(d, u) == Position(c, u))
    && (forall u: nat, x: Side ::
          AcceptedOn(d, u, x) == AcceptedOn(c, u, x) + (if placed && u == s && x == side then LOT else 0))
    && (forall u: nat, t: nat :: HasRow(d.rows, u, t) <==> HasRow(c.rows, u, t) || (u == s && t == trade))
    && (forall t: nat :: HasOrder(d.orders, t, 0) <==> HasOrder(c.orders, t, 0) || (placed && t == trade))
    && d.refused == {}
  }

  lemma {:induction false} LotTally(env: Environment, c: Copies, s: Subscription, trade: nat, side: Side,
                                    outcome: Outcome)
    requires s == FIRST || s == SECOND
    requires outcome.Answered? && (env.unrecorded || outcome.verdict != ACCEPTED || outcome.acknowledged)
    requires env.repeats || !HasRow(c.rows, s.id, trade)
    requires env.sharedKeys || !HasOrder(c.orders, trade, 0)
    requires outcome.verdict != REFUSED && c.refused == {}
    requires side == SELL ==> Position(c, s.id) == LOT
    ensures Tallied(c, Turn(env, c, Copy(s, trade, side, outcome)), s.id, trade, side,
                    Succeeds(c, trade, outcome) && !HasRow(c.rows, s.id, trade),
                    outcome.verdict == ACCEPTED && !HasOrder(c.orders, trade, 0))
  {
    hide Turn, Copy, Position, AcceptedOn;
    MayTurn(env, c, s, trade, side, outcome);
    hide Possible;
    LotTurn(env, c, s, trade, side, outcome);
    var d := Turn(env, c, Copy(s, trade, side, outcome));
    RowsTally(c, d, s.id, trade, side, Succeeds(c, trade, outcome));
    OrdersTally(c, d, s.id, trade, side, outcome.verdict == ACCEPTED);
  }

  lemma {:induction false} MayTurn(env: Environment, c: Copies, s: Subscription, trade: nat, side: Side,
                                   outcome: Outcome)
    requires s == FIRST || s == SECOND
    requires outcome.Answered? && (env.unrecorded || outcome.verdict != ACCEPTED || outcome.acknowledged)
    requires env.repeats || !HasRow(c.rows, s.id, trade)
    requires env.sharedKeys || !HasOrder(c.orders, trade, 0)
    ensures Possible(env, c, Copy(s, trade, side, outcome))
  {
  }

  lemma {:induction false} RowsTally(c: Copies, d: Copies, s: nat, trade: nat, side: Side, ok: bool)
    requires var row := HistoryRow(s, trade, BTC_USDT, side, LOT, CalculateProtectedPrice(1, 0, side),
                                   if ok then COMPLETED else FAILED);
             d.rows == (if HasRow(c.rows, s, trade) then c.rows else c.rows + [row])
    ensures Position(d, s) == Position(c, s) + (if !ok || HasRow(c.rows, s, trade) then 0
                                                else if side == BUY then LOT else 0 - LOT)
    ensures forall u: nat :: u != s ==> Position(d, u) == Position(c, u)
    ensures forall u: nat, t: nat :: HasRow(d.rows, u, t) <==> HasRow(c.rows, u, t) || (u == s && t == trade)
  {
    if !HasRow(c.rows, s, trade) {
      var row := d.rows[|c.rows|];
      forall u: nat
        ensures Position(d, u) == Position(c, u) + (if u != s || !ok then 0 else if side == BUY then LOT else 0 - LOT)
      {
        MorePosition(c, d, row, u);
      }
      forall u: nat, t: nat ensures HasRow(d.rows, u, t) <==> HasRow(c.rows, u, t) || (u == s && t == trade) {
        MoreRows(c, row, u, t);
      }
    }
  }

  lemma {:induction false} OrdersTally(c: Copies, d: Copies, s: nat, trade: nat, side: Side, accepts: bool)
    requires d.orders == (if accepts && !HasOrder(c.orders, trade, 0)
                          then c.orders + [CopiedOrder(trade, 0, s, BTC_USDT, side, LOT)] else c.orders)
    ensures var placed := accepts && !HasOrder(c.orders, trade, 0);
            && (forall u: nat, x: Side ::
                  AcceptedOn(d, u, x) == AcceptedOn(c, u, x) + (if placed && u == s && x == side then LOT else 0))
            && (forall t: nat :: HasOrder(d.orders, t, 0) <==> HasOrder(c.orders, t, 0) || (placed && t == trade))
  {
    if accepts && !HasOrder(c.orders, trade, 0) {
      var o := CopiedOrder(trade, 0, s, BTC_USDT, side, LOT);
      forall u: nat, x: Side
        ensures AcceptedOn(d, u, x) == AcceptedOn(c, u, x) + (if u == s && x == side then LOT else 0)
      {
        MoreAccepted(c, d, o, u, x);
      }
      forall t: nat ensures HasOrder(d.orders, t, 0) <==> HasOrder(c.orders, t, 0) || t == trade {
        OrderAdded(c.orders, o, CopyKey(t, 0));
      }
    }
  }

  lemma NothingYet(env: Environment)
    ensures Run(env, []) == NOTHING
    ensures forall u: nat :: Position(NOTHING, u) == 0
    ensures forall u: nat, x: Side :: AcceptedOn(NOTHING, u, x) == 0
    ensures (forall u: nat, t: nat :: !HasRow(NOTHING.rows, u, t)) && forall t: nat :: !HasOrder(NOTHING.orders, t, 0)
  {
  }

  /** The first copy of all: a lot bought and recorded. */
  lemma {:induction false} BuyLot(env: Environment) returns (attempts: seq<Attempt>)
    ensures var c := Run(env, attempts);
            && Position(c, 0) == LOT && AcceptedOn(c, 0, BUY) == LOT && AcceptedOn(c, 0, SELL) == 0
            && Position(c, 1) == 0 && AcceptedOn(c, 1, BUY) == 0 && AcceptedOn(c, 1, SELL) == 0
            && (forall u: nat, t: nat :: HasRow(c.rows, u, t) <==> u == 0 && t == 0)
            && (forall t: nat :: HasOrder(c.orders, t, 0) <==> t == 0) && c.refused == {}
  {
    hide Run, Turn, Copy, Position, AcceptedOn, HasRow, HasOrder;
    var none: seq<Attempt> := [];
    attempts := none + [Copy(FIRST, 0, BUY, YES)];
    RunMore(env, none, Copy(FIRST, 0, BUY, YES));
    NothingYet(env);
    LotTally(env, NOTHING, FIRST, 0, BUY, YES);
  }

  lemma NotBacked(c: Copies, subscription: nat)
    requires AcceptedOn(c, subscription, SELL) > AcceptedOn(c, subscription, BUY)
    ensures !OrdersBacked(c.orders)
  {
    assert Sum(c.orders, Accepted(subscription, BTC_USDT, SELL)) > Sum(c.orders, Accepted(subscription, BTC_USDT, BUY));
  }

  /** A sell is accepted, its answer is lost, it is recorded as FAILED, and the next sell sells the same lot again. */
  lemma {:induction false} LostAnswerOversells(env: Environment) returns (attempts: seq<Attempt>)
    requires env.unrecorded
    ensures !OrdersBacked(Run(env, attempts).orders)
  {
    hide Run, Turn, Copy, OrdersBacked, Position, AcceptedOn;
    var lost := Copy(FIRST, 1, SELL, Answered(ACCEPTED, false));
    var first := BuyLot(env);
    var second := first + [lost];
    attempts := second + [Copy(FIRST, 2, SELL, YES)];
    RunMore(env, first, lost);
    LotTally(env, Run(env, first), FIRST, 1, SELL, Answered(ACCEPTED, false));
    RunMore(env, second, Copy(FIRST, 2, SELL, YES));
    LotTally(env, Run(env, second), FIRST, 2, SELL, YES);
    NotBacked(Run(env, attempts), 0);
  }

  /**
   The call of a sell never arrives, which is recorded as FAILED; the trade is delivered again and the sell accepted,
   which no row records; and the next sell sells the lot again.
   */
  lemma {:induction false} RepeatOversells(env: Environment) returns (attempts: seq<Attempt>)
    requires env.repeats
    ensures !OrdersBacked(Run(env, attempts).orders)
  {
    hide Run, Turn, Copy, OrdersBacked, Position, AcceptedOn;
    var missed, again := Copy(FIRST, 1, SELL, Answered(UNRECORDED, true)), Copy(FIRST, 1, SELL, YES);
    var first := BuyLot(env);
    var second := first + [missed];
    var third := second + [again];
    attempts := third + [Copy(FIRST, 2, SELL, YES)];
    RunMore(env, first, missed);
    LotTally(env, Run(env, first), FIRST, 1, SELL, Answered(UNRECORDED, true));
    RunMore(env, second, again);
    LotTally(env, Run(env, second), FIRST, 1, SELL, YES);
    RunMore(env, third, Copy(FIRST, 2, SELL, YES));
    LotTally(env, Run(env, third), FIRST, 2, SELL, YES);
    NotBacked(Run(env, attempts), 0);
  }

  /** A second subscription of the follower is answered with the first one's order, and sells what it never bought. */
  lemma {:induction false} SharedKeyOversells(env: Environment) returns (attempts: seq<Attempt>)
    requires env.sharedKeys
    ensures !OrdersBacked(Run(env, attempts).orders)
  {
    hide Run, Turn, Copy, OrdersBacked, Position, AcceptedOn;
    var shared, sold := Copy(SECOND, 0, BUY, YES), Copy(SECOND, 1, SELL, YES);
    var first := BuyLot(env);
    var second := first + [shared];
    attempts := second + [sold];
    RunMore(env, first, shared);
    LotTally(env, Run(env, first), SECOND, 0, BUY, YES);
    RunMore(env, second, sold);
    LotTally(env, Run(env, second), SECOND, 1, SELL, YES);
    NotBacked(Run(env, attempts), 1);
  }

  /**
   Over all runs the accepted sells of a subscription stay within its accepted buys if and only if every accepted order
   is recorded, no recorded trade is delivered again, and no two subscriptions of a follower copy the same trade. The
   history, which bounds the sells, knows only the orders whose answers arrived first.
   */
  lemma {:induction false} AlwaysBackedIff(env: Environment)
    ensures AlwaysBacked(env) <==> !(env.unrecorded || env.repeats || env.sharedKeys)
  {
    hide Run, OrdersBacked;
    if env.unrecorded {
      var attempts := LostAnswerOversells(env);
    } else if env.repeats {
      var attempts := RepeatOversells(env);
    } else if env.sharedKeys {
      var attempts := SharedKeyOversells(env);
    } else {
      forall attempts: seq<Attempt> ensures OrdersBacked(Run(env, attempts).orders) {
        RunIsFaithful(env, attempts);
        FaithfulIsBacked(Run(env, attempts));
      }
    }
  }

  lemma {:induction false} FaithfulIsBacked(c: Copies)
    requires Faithful(c) && NotOversold(c.rows)
    ensures OrdersBacked(c.orders)
  {
    forall s: nat, pair: Pair ensures Sum(c.orders, Accepted(s, pair, SELL)) <= Sum(c.orders, Accepted(s, pair, BUY)) {
      assert Sum(c.rows, Completed(s, pair, SELL)) <= Sum(c.rows, Completed(s, pair, BUY));
    }
  }

  // ---------------------------------------------------------------------------------------------------------
  // The consumer
  // ---------------------------------------------------------------------------------------------------------

  class CopyOrdersHistoryRepository {
    var rows: seq<HistoryRow>

    constructor ()
      ensures rows == []
    {
      rows := [];
    }

    method Create(row: HistoryRow) returns (created: bool)
      modifies this
      ensures rows == Inserted(old(rows), row)
      ensures created <==> !HasRow(old(rows), row.subscription, row.trade)
    {
      var i := 0;
      while i < |rows|
        invariant 0 <= i <= |rows| && rows == old(rows)
        invariant forall j :: 0 <= j < i ==> rows[j].subscription != row.subscription || rows[j].trade != row.trade
      {
        if rows[i].subscription == row.subscription && rows[i].trade == row.trade {
          return false;
        }
        i := i + 1;
      }
      rows := rows + [row];
      return true;
    }

    /** The two sums of getSubscriptionPosition. */
    method GetSubscriptionPosition(subscription: nat, pair: Pair) returns (buyQty: int, sellQty: int)
      ensures buyQty == Sum(rows, Completed(subscription, pair, BUY))
      ensures sellQty == Sum(rows, Completed(subscription, pair, SELL))
    {
      buyQty, sellQty := 0, 0;
      var i := 0;
      while i < |rows|
        invariant 0 <= i <= |rows|
        invariant buyQty == Sum(rows[..i], Completed(subscription, pair, BUY))
        invariant sellQty == Sum(rows[..i], Completed(subscription, pair, SELL))
      {
        var row := rows[i];
        assert rows[..i + 1] == rows[..i] + [row];
        SumAppend(rows[..i], row, Completed(subscription, pair, BUY));
        SumAppend(rows[..i], row, Completed(subscription, pair, SELL));
        if row.subscription == subscription && row.pair == pair && row.status == COMPLETED {
          if row.side == BUY {
            buyQty := buyQty + row.quantity;
          } else {
            sellQty := sellQty + row.quantity;
          }
        }
        i := i + 1;
      }
      assert rows[..i] == rows;
    }
  }

  /** The orders service as this one sees it: a stored order a key, and the keys whose record is a failed one. */
  class OrdersServiceClient {
    var stored: seq<CopiedOrder>
    var refused: set<CopyKey>

    constructor ()
      ensures stored == [] && refused == {}
    {
      stored, refused := [], {};
    }

    /**
     A key that has an order is answered with it, and one with a failed record is refused by the unique index; a new one
     gets its record and is accepted or fails.
     */
    method CreateOrder(order: CopiedOrder, verdict: Verdict) returns (placed: bool)
      modifies this
      ensures stored == Placed(old(stored), old(refused), order, verdict)
      ensures refused == Failed(old(stored), old(refused), order, verdict)
      ensures placed <==> verdict != UNRECORDED && HasOrder(stored, order.trade, order.follower)
    {
      if verdict == UNRECORDED {
        return false;
      }
      var i := 0;
      while i < |stored|
        invariant 0 <= i <= |stored| && stored == old(stored) && refused == old(refused)
        invariant forall j :: 0 <= j < i ==> stored[j].trade != order.trade || stored[j].follower != order.follower
      {
        if stored[i].trade == order.trade && stored[i].follower == order.follower {
          return true;
        }
        i := i + 1;
      }
      if CopyKey(order.trade, order.follower) in refused {
        return false;
      }
      if verdict == REFUSED {
        refused := refused + {CopyKey(order.trade, order.follower)};
        return false;
      }
      stored := stored + [order];
      assert stored[|stored| - 1] == order;
      return true;
    }
  }

  /** The side tasks of a trade: one for each party that is an active master. */
  function TasksOf(t: Trade, id: nat, masters: map<UserId, nat>): seq<SideTask>
  {
    (if t.buyer in masters then [SideTask(masters[t.buyer], t.buyer, BUY, t.price, t.quantity, t.pair, id)] else [])
    + (if t.seller in masters then [SideTask(masters[t.seller], t.seller, SELL, t.price, t.quantity, t.pair, id)]
       else [])
  }

  /** The turns of a task: every active subscriber of its master, in order. */
  function TurnsOf(subscriptions: seq<Subscription>, task: SideTask, balances: map<UserId, int>,
                   outcomes: map<nat, Outcome>): seq<Attempt>
  {
    if subscriptions == [] then []
    else
      var s := subscriptions[|subscriptions| - 1];
      TurnsOf(subscriptions[..|subscriptions| - 1], task, balances, outcomes)
      + (if s.active && s.master == task.master then [TurnOf(s, task, balances, outcomes)] else [])
  }

  function TurnOf(s: Subscription, task: SideTask, balances: map<UserId, int>, outcomes: map<nat, Outcome>): Attempt
  {
    Attempt(s, task, if task.masterUser in balances then balances[task.masterUser] else 0,
            if s.id in outcomes then outcomes[s.id] else Busy)
  }

  function AllTurns(subscriptions: seq<Subscription>, tasks: seq<SideTask>, balances: map<UserId, int>,
                    outcomes: map<nat, Outcome>): seq<Attempt>
  {
    if tasks == [] then []
    else
      AllTurns(subscriptions, tasks[..|tasks| - 1], balances, outcomes)
      + TurnsOf(subscriptions, tasks[|tasks| - 1], balances, outcomes)
  }

  // ---------------------------------------------------------------------------------------------------------
  // What an event leaves in the history and in the orders
  // ---------------------------------------------------------------------------------------------------------

  /** The subscription copies this side of the trade: it is active, and its master is the buyer, or the seller. */
  predicate Follows(s: Subscription, subscriptions: seq<Subscription>, masters: map<UserId, nat>, t: Trade, side: Side)
  {
    && s in subscriptions && s.active
    && var master := if side == BUY then t.buyer else t.seller;
       master in masters && s.master == masters[master]
  }

  /** Its turn: the master's trade, the balance that the master's share is taken of, and how the turn goes. */
  function TurnFor(s: Subscription, masters: map<UserId, nat>, t: Trade, id: nat, side: Side,
                   balances: map<UserId, int>, outcomes: map<nat, Outcome>): Attempt
  {
    var master := if side == BUY then t.buyer else t.seller;
    Attempt(s, SideTask(s.master, master, side, t.price, t.quantity, t.pair, id),
            if master in balances then balances[master] else 0, if s.id in outcomes then outcomes[s.id] else Busy)
  }

  /** How much a turn copies: a share of the allocation, or of what the history shows as bought and not sold. */
  function CopiedQuantity(history: seq<HistoryRow>, a: Attempt): nat
  {
    var bought := Sum(history, Completed(a.subscription.id, a.task.pair, BUY));
    var sold := Sum(history, Completed(a.subscription.id, a.task.pair, SELL));
    if a.task.side == BUY then CalculateBuyQuantity(a.task.quantity, a.masterBalance, a.subscription.allocation)
    else CalculateSellQuantity(a.task.quantity, a.masterBalance, if bought > sold then bought - sold else 0)
  }

  predicate IsDust(pair: Pair, quantity: nat)
  {
    quantity < if pair == BTC_USDT then 10_000 else 100_000
  }

  /** A turn's row, given the history before it and what the orders service holds in the end. */
  predicate RowOfTurn(history: seq<HistoryRow>, a: Attempt, row: HistoryRow, end: Copies)
  {
    && row.subscription == a.subscription.id && row.trade == a.task.trade && row.pair == a.task.pair
    && row.side == a.task.side && row.quantity == CopiedQuantity(history, a)
    && (row.status == SKIPPED <==> IsDust(row.pair, row.quantity))
    && row.price == (if row.status == SKIPPED then a.task.price
                     else CalculateProtectedPrice(a.task.price, a.subscription.slippage, a.task.side))
    && (row.status == COMPLETED ==> HasOrder(end.orders, a.task.trade, a.subscription.follower))
    && (row.status == FAILED ==> a.outcome != Answered(ACCEPTED, true) || KeyOf(a) in end.refused)
  }

  predicate OrderOfTurn(history: seq<HistoryRow>, a: Attempt, o: CopiedOrder)
  {
    && o.trade == a.task.trade && o.follower == a.subscription.follower && o.subscription == a.subscription.id
    && o.pair == a.task.pair && o.side == a.task.side && o.quantity == CopiedQuantity(history, a)
    && !IsDust(o.pair, o.quantity) && !a.outcome.Busy? && a.outcome.verdict == ACCEPTED
  }

  /** Every new row is the row of one of the turns, every new order one that a turn placed. */
  ghost predicate AddedBy(before: Copies, turns: seq<Attempt>, after: Copies)
  {
    && before.rows <= after.rows && before.orders <= after.orders && before.refused <= after.refused
    && (forall k :: |before.rows| <= k < |after.rows| ==>
          RowOfSome(turns, after.rows[..k], after.rows[k], after))
    && (forall k :: |before.orders| <= k < |after.orders| ==> OrderOfSome(turns, after.rows, after.orders[k]))
  }

  predicate RowOfSome(turns: seq<Attempt>, history: seq<HistoryRow>, row: HistoryRow, end: Copies)
  {
    exists i :: 0 <= i < |turns| && RowOfTurn(history, turns[i], row, end)
  }

  /** One of the turns placed the order, at some point of the history. */
  predicate OrderOfSome(turns: seq<Attempt>, rows: seq<HistoryRow>, o: CopiedOrder)
  {
    exists i, j :: 0 <= i < |turns| && 0 <= j <= |rows| && OrderOfTurn(rows[..j], turns[i], o)
  }

  /** Every turn that was answered has its row, and every accepted buy its order unless the key was refused before. */
  ghost predicate NoneForgotten(turns: seq<Attempt>, after: Copies)
  {
    && (forall a :: a in turns && a.outcome.Answered? ==> HasRow(after.rows, a.subscription.id, a.task.trade))
    && (forall a :: a in turns && !a.outcome.Busy? && a.outcome.verdict == ACCEPTED && a.task.side == BUY
                    && !IsDust(a.task.pair, CopiedQuantity([], a)) ==>
          HasOrder(after.orders, a.task.trade, a.subscription.follower) || KeyOf(a) in after.refused)
  }

  lemma {:induction false} TargetIsCopied(c: Copies, a: Attempt)
    ensures TargetOf(c, a) == CopiedQuantity(c.rows, a)
    ensures TargetOf(c, a) < MinLot(a.task.pair) <==> IsDust(a.task.pair, CopiedQuantity(c.rows, a))
    ensures a.task.side == BUY ==> CopiedQuantity(c.rows, a) == CopiedQuantity([], a)
  {
  }

  /** One turn. */
  lemma {:induction false} TurnAdds(c: Copies, a: Attempt)
    ensures var d := Replicated(c, a);
            && c.rows <= d.rows && c.orders <= d.orders && c.refused <= d.refused
            && |d.rows| <= |c.rows| + 1 && |d.orders| <= |c.orders| + 1
            && (|d.rows| == |c.rows| + 1 ==> RowOfTurn(c.rows, a, d.rows[|c.rows|], d))
            && (|d.orders| == |c.orders| + 1 ==> OrderOfTurn(c.rows, a, d.orders[|c.orders|]))
            && NoneForgotten([a], d)
  {
    hide TargetQuantity, CopiedQuantity, MinLot, IsDust, CalculateProtectedPrice;
    TargetIsCopied(c, a);
    NewOrderPlaced(c.orders, OrderOf(a, TargetOf(c, a)));
    if a.outcome.Answered? {
      TurnIsRecorded(c, a);
    }
  }

  lemma {:induction false} TurnIsRecorded(c: Copies, a: Attempt)
    requires a.outcome.Answered?
    ensures HasRow(Replicated(c, a).rows, a.subscription.id, a.task.trade)
  {
    hide TargetQuantity, HasRow;
    var q := TargetOf(c, a);
    AddedRow(c.rows, RowFor(a.subscription, a.task, q, true), a.subscription.id, a.task.trade);
    AddedRow(c.rows, RowFor(a.subscription, a.task, q, false), a.subscription.id, a.task.trade);
  }

  lemma {:induction false} MoreOrdersKeep(one: seq<CopiedOrder>, two: seq<CopiedOrder>, trade: nat, follower: UserId)
    requires one <= two && HasOrder(one, trade, follower)
    ensures HasOrder(two, trade, follower)
  {
    var i :| 0 <= i < |one| && one[i].trade == trade && one[i].follower == follower;
    assert two[i] == one[i];
  }

  lemma {:induction false} MoreRowsKeep(one: seq<HistoryRow>, two: seq<HistoryRow>, subscription: nat, trade: nat)
    requires one <= two && HasRow(one, subscription, trade)
    ensures HasRow(two, subscription, trade)
  {
    var i :| 0 <= i < |one| && one[i].subscription == subscription && one[i].trade == trade;
    assert two[i] == one[i];
  }

  /** What holds of a row against the orders of now still holds against those of later. */
  lemma {:induction false} RowStays(history: seq<HistoryRow>, a: Attempt, row: HistoryRow, now: Copies, later: Copies)
    requires RowOfTurn(history, a, row, now) && now.orders <= later.orders && now.refused <= later.refused
    ensures RowOfTurn(history, a, row, later)
  {
    hide CopiedQuantity, CalculateProtectedPrice;
    if row.status == COMPLETED {
      MoreOrdersKeep(now.orders, later.orders, a.task.trade, a.subscription.follower);
    }
  }

  lemma {:induction false} RowOfSomeStays(init: seq<Attempt>, a: Attempt, history: seq<HistoryRow>, row: HistoryRow,
                                          now: Copies, later: Copies)
    requires RowOfSome(init, history, row, now) && now.orders <= later.orders && now.refused <= later.refused
    ensures RowOfSome(init + [a], history, row, later)
  {
    hide RowOfTurn;
    var i :| 0 <= i < |init| && RowOfTurn(history, init[i], row, now);
    RowStays(history, init[i], row, now, later);
    assert (init + [a])[i] == init[i];
  }

  lemma {:induction false} OrderOfSomeStays(init: seq<Attempt>, a: Attempt, now: seq<HistoryRow>,
                                            later: seq<HistoryRow>, o: CopiedOrder)
    requires OrderOfSome(init, now, o) && now <= later
    ensures OrderOfSome(init + [a], later, o)
  {
    hide OrderOfTurn;
    var i, j :| 0 <= i < |init| && 0 <= j <= |now| && OrderOfTurn(now[..j], init[i], o);
    assert (init + [a])[i] == init[i] && later[..j] == now[..j];
  }

  lemma {:induction false} AddedByMore(c: Copies, init: seq<Attempt>, mid: Copies, a: Attempt, end: Copies)
    requires AddedBy(c, init, mid) && end == Replicated(mid, a)
    ensures AddedBy(c, init + [a], end)
  {
    hide Replicated, RowOfTurn, OrderOfTurn, RowOfSome, OrderOfSome;
    TurnAdds(mid, a);
    forall k | |c.rows| <= k < |end.rows| ensures RowOfSome(init + [a], end.rows[..k], end.rows[k], end) {
      if k < |mid.rows| {
        assert end.rows[..k] == mid.rows[..k] && end.rows[k] == mid.rows[k];
        RowOfSomeStays(init, a, mid.rows[..k], mid.rows[k], mid, end);
      } else {
        assert end.rows[..k] == mid.rows;
        RowOfLast(init, a, mid.rows, end.rows[k], end);
      }
    }
    forall k | |c.orders| <= k < |end.orders| ensures OrderOfSome(init + [a], end.rows, end.orders[k]) {
      if k < |mid.orders| {
        assert end.orders[k] == mid.orders[k];
        OrderOfSomeStays(init, a, mid.rows, end.rows, mid.orders[k]);
      } else {
        OrderOfLast(init, a, mid.rows, end.rows, end.orders[k]);
      }
    }
  }

  lemma {:induction false} RowOfLast(init: seq<Attempt>, a: Attempt, history: seq<HistoryRow>, row: HistoryRow,
                                     end: Copies)
    requires RowOfTurn(history, a, row, end)
    ensures RowOfSome(init + [a], history, row, end)
  {
    hide RowOfTurn;
    assert (init + [a])[|init|] == a;
  }

  lemma {:induction false} OrderOfLast(init: seq<Attempt>, a: Attempt, now: seq<HistoryRow>, later: seq<HistoryRow>,
                                       o: CopiedOrder)
    requires OrderOfTurn(now, a, o) && now <= later
    ensures OrderOfSome(init + [a], later, o)
  {
    hide OrderOfTurn;
    assert (init + [a])[|init|] == a && later[..|now|] == now;
  }

  lemma {:induction false} NoneForgottenMore(init: seq<Attempt>, mid: Copies, a: Attempt)
    requires NoneForgotten(init, mid)
    ensures NoneForgotten(init + [a], Replicated(mid, a))
  {
    hide Replicated, HasRow, HasOrder, CopiedQuantity, IsDust;
    var end := Replicated(mid, a);
    TurnAdds(mid, a);
    assert a in [a];
    forall x | x in init + [a] && x.outcome.Answered? ensures HasRow(end.rows, x.subscription.id, x.task.trade) {
      if x in init {
        MoreRowsKeep(mid.rows, end.rows, x.subscription.id, x.task.trade);
      }
    }
    forall x | x in init + [a] && !x.outcome.Busy? && x.outcome.verdict == ACCEPTED && x.task.side == BUY
               && !IsDust(x.task.pair, CopiedQuantity([], x))
      ensures HasOrder(end.orders, x.task.trade, x.subscription.follower) || KeyOf(x) in end.refused
    {
      if x in init && HasOrder(mid.orders, x.task.trade, x.subscription.follower) {
        MoreOrdersKeep(mid.orders, end.orders, x.task.trade, x.subscription.follower);
      }
    }
  }

  lemma {:induction false} TurnsAdd(c: Copies, turns: seq<Attempt>)
    ensures AddedBy(c, turns, ReplicatedAll(c, turns)) && NoneForgotten(turns, ReplicatedAll(c, turns))
  {
    if turns != [] {
      hide AddedBy, NoneForgotten, Replicated;
      var init, a := turns[..|turns| - 1], turns[|turns| - 1];
      TurnsAdd(c, init);
      AddedByMore(c, init, ReplicatedAll(c, init), a, ReplicatedAll(c, turns));
      NoneForgottenMore(init, ReplicatedAll(c, init), a);
      assert init + [a] == turns;
    }
  }

  /** The turns of an event are the turns of those who follow one of its sides. */
  ghost predicate TurnsOfEvent(turns: seq<Attempt>, subscriptions: seq<Subscription>, masters: map<UserId, nat>,
                               t: Trade, id: nat, balances: map<UserId, int>, outcomes: map<nat, Outcome>)
  {
    && (forall a :: a in turns ==>
          exists side :: Follows(a.subscription, subscriptions, masters, t, side)
                         && a == TurnFor(a.subscription, masters, t, id, side, balances, outcomes))
    && (forall s, side :: Follows(s, subscriptions, masters, t, side) ==>
          TurnFor(s, masters, t, id, side, balances, outcomes) in turns)
  }

  lemma {:induction false} TurnsOfMeaning(subscriptions: seq<Subscription>, task: SideTask, balances: map<UserId, int>,
                                          outcomes: map<nat, Outcome>, a: Attempt)
    ensures a in TurnsOf(subscriptions, task, balances, outcomes)
       <==> a.subscription in subscriptions && a.subscription.active && a.subscription.master == task.master
            && a == TurnOf(a.subscription, task, balances, outcomes)
  {
    if subscriptions != [] {
      var init, s := subscriptions[..|subscriptions| - 1], subscriptions[|subscriptions| - 1];
      TurnsOfMeaning(init, task, balances, outcomes, a);
      assert subscriptions == init + [s];
    }
  }

  lemma {:induction false} AllTurnsMeaning(subscriptions: seq<Subscription>, tasks: seq<SideTask>,
                                           balances: map<UserId, int>, outcomes: map<nat, Outcome>, a: Attempt)
    ensures a in AllTurns(subscriptions, tasks, balances, outcomes)
       <==> exists i :: 0 <= i < |tasks| && a in TurnsOf(subscriptions, tasks[i], balances, outcomes)
  {
    hide TurnsOf;
    if tasks != [] {
      var n := |tasks| - 1;
      AllTurnsMeaning(subscriptions, tasks[..n], balances, outcomes, a);
      forall i | 0 <= i < n ensures tasks[..n][i] == tasks[i] {
      }
      assert a in AllTurns(subscriptions, tasks, balances, outcomes)
        <==> a in AllTurns(subscriptions, tasks[..n], balances, outcomes)
             || a in TurnsOf(subscriptions, tasks[n], balances, outcomes);
    }
  }

  lemma {:induction false} EventTurns(subscriptions: seq<Subscription>, masters: map<UserId, nat>, t: Trade, id: nat,
                                      balances: map<UserId, int>, outcomes: map<nat, Outcome>)
    ensures TurnsOfEvent(AllTurns(subscriptions, TasksOf(t, id, masters), balances, outcomes), subscriptions, masters, t,
                         id, balances, outcomes)
  {
    hide TurnsOf, AllTurns;
    var tasks := TasksOf(t, id, masters);
    var turns := AllTurns(subscriptions, tasks, balances, outcomes);
    forall a | a in turns
      ensures exists side :: Follows(a.subscription, subscriptions, masters, t, side)
                             && a == TurnFor(a.subscription, masters, t, id, side, balances, outcomes)
    {
      AllTurnsMeaning(subscriptions, tasks, balances, outcomes, a);
      var i :| 0 <= i < |tasks| && a in TurnsOf(subscriptions, tasks[i], balances, outcomes);
      TurnsOfMeaning(subscriptions, tasks[i], balances, outcomes, a);
      assert Follows(a.subscription, subscriptions, masters, t, tasks[i].side);
      assert a == TurnFor(a.subscription, masters, t, id, tasks[i].side, balances, outcomes);
    }
    forall s, side | Follows(s, subscriptions, masters, t, side)
      ensures TurnFor(s, masters, t, id, side, balances, outcomes) in turns
    {
      var a := TurnFor(s, masters, t, id, side, balances, outcomes);
      var i := if side == BUY then 0 else |tasks| - 1;
      assert a == TurnOf(s, tasks[i], balances, outcomes);
      TurnsOfMeaning(subscriptions, tasks[i], balances, outcomes, a);
      AllTurnsMeaning(subscriptions, tasks, balances, outcomes, a);
    }
  }

  /**
   What a new event about a trade leaves behind. Its turns are a BUY for every active follower of the buyer, if the buyer
   is a master, and a SELL for every one of the seller; the new rows and orders are theirs and nobody else's.
   */
  ghost predicate Copied(before: Copies, after: Copies, subscriptions: seq<Subscription>, masters: map<UserId, nat>,
                         t: Trade, id: nat, balances: map<UserId, int>, outcomes: map<nat, Outcome>)
  {
    exists turns :: TurnsOfEvent(turns, subscriptions, masters, t, id, balances, outcomes)
                    && AddedBy(before, turns, after) && NoneForgotten(turns, after)
  }

  lemma {:induction false} EventCopies(c: Copies, subscriptions: seq<Subscription>, masters: map<UserId, nat>, t: Trade,
                                       id: nat, balances: map<UserId, int>, outcomes: map<nat, Outcome>)
    ensures Copied(c, ReplicatedAll(c, AllTurns(subscriptions, TasksOf(t, id, masters), balances, outcomes)),
                   subscriptions, masters, t, id, balances, outcomes)
  {
    hide AddedBy, NoneForgotten, TurnsOfEvent;
    var turns := AllTurns(subscriptions, TasksOf(t, id, masters), balances, outcomes);
    EventTurns(subscriptions, masters, t, id, balances, outcomes);
    TurnsAdd(c, turns);
  }

  lemma {:induction false} TurnOfRow(before: Copies, turns: seq<Attempt>, after: Copies, k: nat) returns (a: Attempt)
    requires AddedBy(before, turns, after) && |before.rows| <= k < |after.rows|
    ensures a in turns && RowOfTurn(after.rows[..k], a, after.rows[k], after)
  {
    hide RowOfTurn;
    assert RowOfSome(turns, after.rows[..k], after.rows[k], after);
    var i :| 0 <= i < |turns| && RowOfTurn(after.rows[..k], turns[i], after.rows[k], after);
    a := turns[i];
  }

  lemma {:induction false} TurnOfOrder(before: Copies, turns: seq<Attempt>, after: Copies, k: nat)
    returns (a: Attempt, j: nat)
    requires AddedBy(before, turns, after) && |before.orders| <= k < |after.orders|
    ensures a in turns && j <= |after.rows| && OrderOfTurn(after.rows[..j], a, after.orders[k])
  {
    hide OrderOfTurn;
    assert OrderOfSome(turns, after.rows, after.orders[k]);
    var i, l :| 0 <= i < |turns| && 0 <= l <= |after.rows| && OrderOfTurn(after.rows[..l], turns[i], after.orders[k]);
    a, j := turns[i], l;
  }

  /** A row about the trade: a BUY of a follower of the buyer, or a SELL of one of the seller, of the follower's share. */
  predicate RowOfEvent(history: seq<HistoryRow>, row: HistoryRow, subscriptions: seq<Subscription>,
                       masters: map<UserId, nat>, t: Trade, id: nat, balances: map<UserId, int>,
                       outcomes: map<nat, Outcome>)
  {
    && row.trade == id && row.pair == t.pair
    && exists i :: 0 <= i < |subscriptions| && subscriptions[i].id == row.subscription
         && Follows(subscriptions[i], subscriptions, masters, t, row.side)
         && row.quantity
            == CopiedQuantity(history, TurnFor(subscriptions[i], masters, t, id, row.side, balances, outcomes))
  }

  predicate OrderOfEvent(o: CopiedOrder, subscriptions: seq<Subscription>, masters: map<UserId, nat>, t: Trade, id: nat)
  {
    && o.trade == id && o.pair == t.pair
    && exists i :: 0 <= i < |subscriptions| && subscriptions[i].id == o.subscription
         && subscriptions[i].follower == o.follower && Follows(subscriptions[i], subscriptions, masters, t, o.side)
  }

  predicate Answers(subscription: nat, outcomes: map<nat, Outcome>)
  {
    subscription in outcomes && outcomes[subscription].Answered?
  }

  /**
   Read from the history: a new row about the trade is a BUY of a follower of the buyer or a SELL of a follower of the
   seller, on the trade's pair and of the follower's share; and every such follower whose turn was answered has a row.
   */
  lemma {:induction false} CopiedRows(before: Copies, after: Copies, subscriptions: seq<Subscription>,
                                      masters: map<UserId, nat>, t: Trade, id: nat, balances: map<UserId, int>,
                                      outcomes: map<nat, Outcome>)
    requires Copied(before, after, subscriptions, masters, t, id, balances, outcomes)
    ensures before.rows <= after.rows && before.orders <= after.orders
    ensures forall k :: |before.rows| <= k < |after.rows| ==>
              RowOfEvent(after.rows[..k], after.rows[k], subscriptions, masters, t, id, balances, outcomes)
    ensures forall k :: |before.orders| <= k < |after.orders| ==>
              OrderOfEvent(after.orders[k], subscriptions, masters, t, id)
    ensures forall s, side :: Follows(s, subscriptions, masters, t, side) && Answers(s.id, outcomes) ==>
              HasRow(after.rows, s.id, id)
  {
    hide CopiedQuantity, IsDust, CalculateProtectedPrice, HasOrder;
    var turns :| TurnsOfEvent(turns, subscriptions, masters, t, id, balances, outcomes)
                 && AddedBy(before, turns, after) && NoneForgotten(turns, after);
    forall k | |before.rows| <= k < |after.rows|
      ensures RowOfEvent(after.rows[..k], after.rows[k], subscriptions, masters, t, id, balances, outcomes)
    {
      var a := TurnOfRow(before, turns, after, k);
      var side :| Follows(a.subscription, subscriptions, masters, t, side)
                  && a == TurnFor(a.subscription, masters, t, id, side, balances, outcomes);
      var i :| 0 <= i < |subscriptions| && subscriptions[i] == a.subscription;
      assert Follows(subscriptions[i], subscriptions, masters, t, after.rows[k].side);
    }
    forall k | |before.orders| <= k < |after.orders|
      ensures OrderOfEvent(after.orders[k], subscriptions, masters, t, id)
    {
      var a, j := TurnOfOrder(before, turns, after, k);
      var side :| Follows(a.subscription, subscriptions, masters, t, side)
                  && a == TurnFor(a.subscription, masters, t, id, side, balances, outcomes);
      var i :| 0 <= i < |subscriptions| && subscriptions[i] == a.subscription;
      assert Follows(subscriptions[i], subscriptions, masters, t, after.orders[k].side);
    }
    forall s, side | Follows(s, subscriptions, masters, t, side) && Answers(s.id, outcomes)
      ensures HasRow(after.rows, s.id, id)
    {
      assert TurnFor(s, masters, t, id, side, balances, outcomes) in turns;
    }
  }

  lemma TurnsNext(c: Copies, subscriptions: seq<Subscription>, i: nat, task: SideTask,
                  balances: map<UserId, int>, outcomes: map<nat, Outcome>)
    requires i < |subscriptions|
    ensures ReplicatedAll(c, TurnsOf(subscriptions[..i + 1], task, balances, outcomes))
         == var before := ReplicatedAll(c, TurnsOf(subscriptions[..i], task, balances, outcomes));
            if subscriptions[i].active && subscriptions[i].master == task.master
            then Replicated(before, TurnOf(subscriptions[i], task, balances, outcomes)) else before
  {
    var before, a := TurnsOf(subscriptions[..i], task, balances, outcomes),
                     TurnOf(subscriptions[i], task, balances, outcomes);
    assert subscriptions[..i + 1][..i] == subscriptions[..i];
    assert (before + [a])[..|before|] == before && before + [] == before;
  }

  lemma AllTurnsNext(c: Copies, subscriptions: seq<Subscription>, tasks: seq<SideTask>, i: nat,
                     balances: map<UserId, int>, outcomes: map<nat, Outcome>)
    requires i < |tasks|
    ensures ReplicatedAll(c, AllTurns(subscriptions, tasks[..i + 1], balances, outcomes))
         == ReplicatedAll(ReplicatedAll(c, AllTurns(subscriptions, tasks[..i], balances, outcomes)),
                          TurnsOf(subscriptions, tasks[i], balances, outcomes))
  {
    assert tasks[..i + 1][..i] == tasks[..i];
    ReplicatedConcat(c, AllTurns(subscriptions, tasks[..i], balances, outcomes),
                     TurnsOf(subscriptions, tasks[i], balances, outcomes));
  }

  lemma {:induction false} ReplicatedConcat(c: Copies, one: seq<Attempt>, two: seq<Attempt>)
    ensures ReplicatedAll(c, one + two) == ReplicatedAll(ReplicatedAll(c, one), two)
  {
    if two == [] {
      assert one + two == one;
    } else {
      var init := two[..|two| - 1];
      ReplicatedConcat(c, one, init);
      assert (one + two)[..|one + two| - 1] == one + init;
    }
  }

  class MasterTradeReplicationConsumer {
    const history: CopyOrdersHistoryRepository
    const orders: OrdersServiceClient
    var subscriptions: seq<Subscription>
    var masters: map<UserId, nat>
    var processed: set<nat>

    ghost function View(): Copies
      reads history, orders
    {
      Copies(history.rows, orders.stored, orders.refused)
    }

    constructor (history: CopyOrdersHistoryRepository, orders: OrdersServiceClient)
      ensures this.history == history && this.orders == orders
      ensures subscriptions == [] && masters == map[] && processed == {}
    {
      this.history, this.orders := history, orders;
      subscriptions, masters, processed := [], map[], {};
    }

    /** A turn ends where its process dies: after createOrder, before the history is written. */
    method ReplicateForSubscriber(a: Attempt)
      modifies history, orders
      ensures View() == Replicated(old(View()), a)
    {
      if a.outcome.Busy? {
        return;
      }
      var s, task := a.subscription, a.task;
      var targetQuantity := 0;
      if task.side == BUY {
        targetQuantity := CalculateBuyQuantity(task.quantity, a.masterBalance, s.allocation);
      } else {
        var buyQty, sellQty := history.GetSubscriptionPosition(s.id, task.pair);
        targetQuantity := CalculateSellQuantity(task.quantity, a.masterBalance, CalculateSubPosition(buyQty, sellQty));
      }
      if targetQuantity < MinLot(task.pair) {
        if !a.outcome.Died? {
          var _ := history.Create(HistoryRow(s.id, task.trade, task.pair, task.side, targetQuantity, task.price,
                                             SKIPPED));
        }
        return;
      }
      var protectedPrice := CalculateProtectedPrice(task.price, s.slippage, task.side);
      var placed := orders.CreateOrder(OrderOf(a, targetQuantity), a.outcome.verdict);
      if a.outcome.Died? {
        return;
      }
      var _ := history.Create(HistoryRow(s.id, task.trade, task.pair, task.side, targetQuantity, protectedPrice,
                                         if placed && a.outcome.acknowledged then COMPLETED else FAILED));
    }

    method ReplicateMasterTrade(task: SideTask, balances: map<UserId, int>, outcomes: map<nat, Outcome>)
      modifies history, orders
      ensures View() == ReplicatedAll(old(View()), TurnsOf(subscriptions, task, balances, outcomes))
    {
      var i := 0;
      while i < |subscriptions|
        invariant 0 <= i <= |subscriptions|
        invariant View() == ReplicatedAll(old(View()), TurnsOf(subscriptions[..i], task, balances, outcomes))
      {
        var s := subscriptions[i];
        TurnsNext(old(View()), subscriptions, i, task, balances, outcomes);
        if s.active && s.master == task.master {
          ReplicateForSubscriber(TurnOf(s, task, balances, outcomes));
        }
        i := i + 1;
      }
      assert subscriptions[..i] == subscriptions;
    }

    method ReplicateSides(sideTasks: seq<SideTask>, balances: map<UserId, int>, outcomes: map<nat, Outcome>)
      modifies history, orders
      ensures View() == ReplicatedAll(old(View()), AllTurns(subscriptions, sideTasks, balances, outcomes))
    {
      hide Replicated, TurnsOf;
      var i := 0;
      while i < |sideTasks|
        invariant 0 <= i <= |sideTasks|
        invariant View()
               == ReplicatedAll(old(View()), AllTurns(subscriptions, sideTasks[..i], balances, outcomes))
      {
        AllTurnsNext(old(View()), subscriptions, sideTasks, i, balances, outcomes);
        ReplicateMasterTrade(sideTasks[i], balances, outcomes);
        i := i + 1;
      }
      assert sideTasks[..i] == sideTasks;
    }

    method BuildSideTasks(t: Trade, id: nat) returns (sideTasks: seq<SideTask>)
      ensures sideTasks == TasksOf(t, id, masters)
    {
      sideTasks := [];
      if t.buyer in masters {
        sideTasks := sideTasks + [SideTask(masters[t.buyer], t.buyer, BUY, t.price, t.quantity, t.pair, id)];
      }
      if t.seller in masters {
        sideTasks := sideTasks + [SideTask(masters[t.seller], t.seller, SELL, t.price, t.quantity, t.pair, id)];
      }
    }

    /**
     An event is marked processed after all its tasks; a process that dies before that leaves it to a redelivery. The
     turns a dying process never got to count as Busy.
     */
    method HandleMessage(t: Trade, id: nat, balances: map<UserId, int>, outcomes: map<nat, Outcome>, dies: bool)
      modifies this`processed, history, orders
      ensures if id in old(processed) || (t.buyer !in masters && t.seller !in masters)
              then View() == old(View()) && processed == old(processed)
              else
                && Copied(old(View()), View(), subscriptions, masters, t, id, balances, outcomes)
                && View() == ReplicatedAll(old(View()),
                                           AllTurns(subscriptions, TasksOf(t, id, masters), balances, outcomes))
                && processed == old(processed) + (if dies then {} else {id})
    {
      hide Copied, AllTurns, ReplicatedAll;
      if (t.buyer !in masters && t.seller !in masters) || id in processed {
        return;
      }
      EventCopies(View(), subscriptions, masters, t, id, balances, outcomes);
      var sideTasks := BuildSideTasks(t, id);
      ReplicateSides(sideTasks, balances, outcomes);
      if !dies {
        processed := processed + {id};
      }
    }
  }
}
