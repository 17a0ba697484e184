/**
 From the outbox to the settlement consumer: the relay sends pending rows and marks them in one transaction, the log
 keeps what was sent, and the consumer handles messages in order and resolves an offset only after success. Trades are
 numbered in commit order; the number is the event id.
 */
module Delivery {
  import opened Domain
  import opened Sums
  import opened Ledger
  import opened Settlement

  /** One outbox row and two topics. An order event carries nothing that settlement reads. */
  datatype OutboxRow = OrderEvent(published: bool) | TradeEvent(trade: nat, published: bool)

  /** How sendBatch ends: acknowledged, or failed (or the process died) after parts of the two topics were written. */
  datatype Sending = Acknowledged | Interrupted(orders: nat, trades: nat)

  const BATCH_SIZE := 50

  /** Positions of the first pending rows, oldest first, without those that another relay holds locked. */
  function PendingBatch(rows: seq<OutboxRow>, busy: set<nat>, from: nat, limit: nat): (ids: seq<nat>)
    requires from <= |rows|
    ensures |ids| <= limit
    ensures forall i :: 0 <= i < |ids| ==> from <= ids[i] < |rows| && !rows[ids[i]].published && ids[i] !in busy
    ensures forall i, j :: 0 <= i < j < |ids| ==> ids[i] < ids[j]
    decreases |rows| - from
  {
    if from == |rows| || limit == 0 then []
    else if rows[from].published || from in busy then PendingBatch(rows, busy, from + 1, limit)
    else [from] + PendingBatch(rows, busy, from + 1, limit - 1)
  }

  /** Up to a limit, the oldest pending rows that no other relay holds: a row is left out only for older ones. */
  predicate OldestPending(rows: seq<OutboxRow>, busy: set<nat>, limit: nat, ids: seq<nat>)
  {
    && |ids| <= limit && (forall i, j :: 0 <= i < j < |ids| ==> ids[i] < ids[j])
    && (forall i :: 0 <= i < |ids| ==> ids[i] < |rows| && !rows[ids[i]].published && ids[i] !in busy)
    && (forall k :: 0 <= k < |rows| && !rows[k].published && k !in busy ==>
          k in ids || (|ids| == limit && forall i :: 0 <= i < |ids| ==> ids[i] < k))
  }

  /** A pending row that no other relay holds is in the batch, unless the batch is full of older ones. */
  lemma {:induction false} BatchIsOldest(rows: seq<OutboxRow>, busy: set<nat>, from: nat, limit: nat, k: nat)
    requires from <= k < |rows| && !rows[k].published && k !in busy
    ensures var ids := PendingBatch(rows, busy, from, limit);
            k in ids || (|ids| == limit && forall i :: 0 <= i < |ids| ==> ids[i] < k)
    decreases |rows| - from
  {
    if limit > 0 {
      if rows[from].published || from in busy {
        BatchIsOldest(rows, busy, from + 1, limit, k);
      } else if from < k {
        BatchIsOldest(rows, busy, from + 1, limit - 1, k);
      }
    }
  }

  lemma {:induction false} BatchIsOldestPending(rows: seq<OutboxRow>, busy: set<nat>, limit: nat)
    ensures OldestPending(rows, busy, limit, PendingBatch(rows, busy, 0, limit))
  {
    forall k | 0 <= k < |rows| && !rows[k].published && k !in busy
      ensures var ids := PendingBatch(rows, busy, 0, limit);
              k in ids || (|ids| == limit && forall i :: 0 <= i < |ids| ==> ids[i] < k)
    {
      BatchIsOldest(rows, busy, 0, limit, k);
    }
  }

  function Marked(row: OutboxRow): OutboxRow
  {
    row.(published := true)
  }

  function MarkPublished(rows: seq<OutboxRow>, ids: seq<nat>): (r: seq<OutboxRow>)
    ensures |r| == |rows|
  {
    if ids == [] then rows
    else
      var rest := MarkPublished(rows, ids[..|ids| - 1]);
      var id := ids[|ids| - 1];
      if id < |rows| then rest[id := Marked(rest[id])] else rest
  }

  /** The trades carried by the given rows, in order: the records for the matching topic. */
  function TradeRecords(rows: seq<OutboxRow>, ids: seq<nat>): seq<nat>
    requires forall i :: 0 <= i < |ids| ==> ids[i] < |rows|
  {
    if ids == [] then []
    else
      TradeRecords(rows, ids[..|ids| - 1])
      + (if rows[ids[|ids| - 1]].TradeEvent? then [rows[ids[|ids| - 1]].trade] else [])
  }

  function OrderRecords(rows: seq<OutboxRow>, ids: seq<nat>): nat
    requires forall i :: 0 <= i < |ids| ==> ids[i] < |rows|
  {
    if ids == [] then 0
    else OrderRecords(rows, ids[..|ids| - 1]) + (if rows[ids[|ids| - 1]].OrderEvent? then 1 else 0)
  }

  function Prefix<T>(s: seq<T>, n: nat): seq<T>
  {
    if n <= |s| then s[..n] else s
  }

  datatype Outbox = Outbox(rows: seq<OutboxRow>, orderTopic: nat, matchingTopic: seq<nat>)

  /** processBatch of the relay. */
  function RelayBatch(o: Outbox, busy: set<nat>, sending: Sending): Outbox
  {
    var ids := PendingBatch(o.rows, busy, 0, BATCH_SIZE);
    match sending
    case Acknowledged =>
      Outbox(MarkPublished(o.rows, ids), o.orderTopic + OrderRecords(o.rows, ids),
             o.matchingTopic + TradeRecords(o.rows, ids))
    case Interrupted(orders, trades) =>
      Outbox(o.rows, o.orderTopic + Min(orders, OrderRecords(o.rows, ids)),
             o.matchingTopic + Prefix(TradeRecords(o.rows, ids), trades))
  }

  /** Counts the PENDING rows. */
  function Pending(): OutboxRow -> int
  {
    (row: OutboxRow) => if row.published then 0 else 1
  }

  /** The trades of the PENDING rows from a position on, oldest first. */
  function TradesFrom(rows: seq<OutboxRow>, from: nat): seq<nat>
    requires from <= |rows|
    decreases |rows| - from
  {
    if from == |rows| then []
    else
      (if rows[from].TradeEvent? && !rows[from].published then [rows[from].trade] else []) + TradesFrom(rows, from + 1)
  }

  /** Acknowledged batches, one after the other. */
  function RelayBatches(o: Outbox, batches: nat): Outbox
  {
    if batches == 0 then o else RelayBatch(RelayBatches(o, batches - 1), {}, Acknowledged)
  }

  /** The trades whose outbox row is still PENDING. */
  function PendingTrades(rows: seq<OutboxRow>): set<nat>
  {
    set i | 0 <= i < |rows| && rows[i].TradeEvent? && !rows[i].published :: rows[i].trade
  }

  /** The outbox_events table. */
  class OutboxRepository {
    var rows: seq<OutboxRow>

    constructor ()
      ensures rows == []
    {
      rows := [];
    }

    method InsertMany(events: seq<OutboxRow>)
      modifies this
      ensures rows == old(rows) + events
    {
      if events == [] {
        return;
      }
      rows := rows + events;
    }

    /** Rows locked by another relay are skipped. */
    method FetchPendingBatch(busy: set<nat>, limit: nat) returns (ids: seq<nat>)
      ensures ids == PendingBatch(rows, busy, 0, limit)
      ensures OldestPending(rows, busy, limit, ids)
    {
      hide OldestPending;
      ids := [];
      var i := 0;
      while i < |rows| && |ids| < limit
        invariant 0 <= i <= |rows| && |ids| <= limit
        invariant PendingBatch(rows, busy, 0, limit) == ids + PendingBatch(rows, busy, i, limit - |ids|)
      {
        if !rows[i].published && i !in busy {
          ids := ids + [i];
        }
        i := i + 1;
      }
      BatchIsOldestPending(rows, busy, limit);
    }

    method MarkAsPublished(ids: seq<nat>)
      requires forall k :: 0 <= k < |ids| ==> ids[k] < |rows|
      modifies this
      ensures rows == MarkPublished(old(rows), ids)
    {
      var i := 0;
      while i < |ids|
        invariant 0 <= i <= |ids|
        invariant rows == MarkPublished(old(rows), ids[..i])
      {
        assert ids[..i + 1][..i] == ids[..i];
        rows := rows[ids[i] := Marked(rows[ids[i]])];
        i := i + 1;
      }
      assert ids[..i] == ids;
    }

  }

  class OutboxRelayService {
    const repository: OutboxRepository
    var orderTopic: nat
    var matchingTopic: seq<nat>

    ghost function View(): Outbox
      reads this, repository
    {
      Outbox(repository.rows, orderTopic, matchingTopic)
    }

    constructor (repository: OutboxRepository)
      ensures this.repository == repository && orderTopic == 0 && matchingTopic == []
    {
      this.repository := repository;
      orderTopic, matchingTopic := 0, [];
    }

    /** One pass over the batch turns rows into records for the two topics. */
    method BuildRecords(rows: seq<OutboxRow>, ids: seq<nat>) returns (orders: nat, trades: seq<nat>)
      requires forall k :: 0 <= k < |ids| ==> ids[k] < |rows|
      ensures orders == OrderRecords(rows, ids) && trades == TradeRecords(rows, ids)
    {
      orders, trades := 0, [];
      var i := 0;
      while i < |ids|
        invariant 0 <= i <= |ids|
        invariant trades == TradeRecords(rows, ids[..i]) && orders == OrderRecords(rows, ids[..i])
      {
        assert ids[..i + 1][..i] == ids[..i];
        var event := rows[ids[i]];
        if event.OrderEvent? {
          orders := orders + 1;
        } else {
          trades := trades + [event.trade];
        }
        i := i + 1;
      }
      assert ids[..i] == ids;
    }

    /** Sends first and marks afterwards; whatever interrupts the send rolls the marks back but not the topics. */
    method ProcessBatch(busy: set<nat>, sending: Sending) returns (count: nat)
      modifies this, repository
      ensures View() == RelayBatch(old(View()), busy, sending)
      ensures count == if sending.Acknowledged? then |PendingBatch(old(repository.rows), busy, 0, BATCH_SIZE)| else 0
    {
      hide OldestPending;
      var publishedIds := repository.FetchPendingBatch(busy, BATCH_SIZE);
      if publishedIds == [] {
        return 0;
      }
      var orders, trades := BuildRecords(repository.rows, publishedIds);
      match sending {
        case Acknowledged =>
          orderTopic, matchingTopic := orderTopic + orders, matchingTopic + trades;
          repository.MarkAsPublished(publishedIds);
          return |publishedIds|;
        case Interrupted(someOrders, someTrades) =>
          orderTopic := orderTopic + Min(someOrders, orders);
          matchingTopic := matchingTopic + Prefix(trades, someTrades);
          return 0;
      }
    }
  }

  // ---------------------------------------------------------------------------------------------------------
  // The delivery state machine
  // ---------------------------------------------------------------------------------------------------------

  /**
   pending: trades whose outbox row is PENDING. log: trade ids on the topic. cursor: next offset the consumer handles.
   committed: offset a restarted consumer resumes from.
   */
  datatype Channel = Channel(pending: set<nat>, log: seq<nat>, cursor: nat, committed: nat)

  /** One relay transaction: the records that reached the topic, and whether the batch was marked. */
  function Relay(c: Channel, batch: seq<nat>, sent: nat, marked: bool): Channel
  {
    if !(forall i :: 0 <= i < |batch| ==> batch[i] in c.pending) then c
    else if marked then c.(log := c.log + batch, pending := c.pending - (set i | 0 <= i < |batch| :: batch[i]))
    else c.(log := c.log + Prefix(batch, sent))
  }

  function Interval(first: nat, count: nat): (s: set<nat>)
    ensures forall i: nat :: i in s <==> first <= i < first + count
  {
    if count == 0 then {} else Interval(first, count - 1) + {first + count - 1}
  }

  function Enqueue(c: Channel, first: nat, count: nat): Channel
  {
    c.(pending := c.pending + Interval(first, count))
  }

  function CommitOffset(c: Channel): Channel
  {
    c.(committed := c.cursor)
  }

  function Restart(c: Channel): Channel
  {
    c.(cursor := c.committed)
  }

  /** However far the consumer got after its last commit, a restart takes it back to exactly there. */
  lemma ResumesWhereCommitted(c: Channel, cursor: nat)
    ensures Restart(CommitOffset(c).(cursor := cursor)) == CommitOffset(c)
    ensures CommitOffset(c).cursor == CommitOffset(c).committed == c.cursor
  {
  }

  /**
   Every committed trade is pending or on the log. A trade is resolved when it is settled or dead-lettered: every one that
   the consumer passed is, and only logged ones are.
   */
  ghost predicate ChannelOk(c: Channel, count: nat, resolved: set<nat>)
  {
    && c.committed <= c.cursor <= |c.log|
    && (forall i :: i in c.pending ==> i < count)
    && (forall k :: 0 <= k < |c.log| ==> c.log[k] < count)
    && (forall i: nat :: i < count ==> i in c.pending || i in c.log)
    && (forall k :: 0 <= k < c.cursor ==> c.log[k] in resolved)
    && (forall i :: i in resolved ==> i in c.log)
  }

  /** No outbox row is PENDING and every log offset is resolved. */
  predicate Quiescent(c: Channel)
  {
    c.pending == {} && c.cursor == |c.log|
  }

  lemma QuiescentMeansResolved(c: Channel, count: nat, resolved: set<nat>)
    requires ChannelOk(c, count, resolved) && Quiescent(c)
    ensures forall i: nat :: i in resolved <==> i < count
  {
    forall i: nat | i < count ensures i in resolved {
      assert i in c.log;
      var k :| 0 <= k < |c.log| && c.log[k] == i;
    }
  }

  lemma RelayKeepsChannel(c: Channel, count: nat, resolved: set<nat>, batch: seq<nat>, sent: nat, marked: bool)
    requires ChannelOk(c, count, resolved)
    ensures ChannelOk(Relay(c, batch, sent, marked), count, resolved)
  {
    var d := Relay(c, batch, sent, marked);
    if d != c {
      forall i: nat | i < count ensures i in d.pending || i in d.log {
        if i in c.log {
          var k :| 0 <= k < |c.log| && c.log[k] == i;
          assert d.log[k] == i;
        } else if marked && i !in d.pending {
          var k :| 0 <= k < |batch| && batch[k] == i;
          assert d.log[|c.log| + k] == i;
        }
      }
      forall k | 0 <= k < |d.log| ensures d.log[k] < count {
        if k >= |c.log| {
          assert d.log[k] == batch[k - |c.log|];
        }
      }
      forall i | i in resolved ensures i in d.log {
        var k :| 0 <= k < |c.log| && c.log[k] == i;
        assert d.log[k] == i;
      }
    }
  }

  lemma EnqueueKeepsChannel(c: Channel, count: nat, resolved: set<nat>, more: nat)
    requires ChannelOk(c, count, resolved)
    ensures ChannelOk(Enqueue(c, count, more), count + more, resolved)
  {
  }

  lemma DeliverKeepsChannel(c: Channel, count: nat, resolved: set<nat>)
    requires ChannelOk(c, count, resolved) && c.cursor < |c.log|
    ensures ChannelOk(c.(cursor := c.cursor + 1), count, resolved + {c.log[c.cursor]})
  {
  }

  lemma RecordsNext(rows: seq<OutboxRow>, ids: seq<nat>)
    requires ids != [] && forall i :: 0 <= i < |ids| ==> ids[i] < |rows|
    ensures var init, last := ids[..|ids| - 1], rows[ids[|ids| - 1]];
            forall t :: t in TradeRecords(rows, ids)
                   <==> t in TradeRecords(rows, init) || (last.TradeEvent? && last.trade == t)
  {
  }

  lemma {:induction false} RecordsOf(rows: seq<OutboxRow>, ids: seq<nat>)
    requires forall i :: 0 <= i < |ids| ==> ids[i] < |rows|
    ensures forall t :: t in TradeRecords(rows, ids)
                   <==> (exists i :: 0 <= i < |ids| && rows[ids[i]] == TradeEvent(t, rows[ids[i]].published))
  {
    if ids != [] {
      var init, last := ids[..|ids| - 1], ids[|ids| - 1];
      RecordsOf(rows, init);
      RecordsNext(rows, ids);
      hide TradeRecords;
      forall t
        ensures t in TradeRecords(rows, ids)
           <==> (exists i :: 0 <= i < |ids| && rows[ids[i]] == TradeEvent(t, rows[ids[i]].published))
      {
        if t in TradeRecords(rows, init) {
          var i :| 0 <= i < |init| && rows[init[i]] == TradeEvent(t, rows[init[i]].published);
          assert ids[i] == init[i];
        }
        if exists i :: 0 <= i < |ids| && rows[ids[i]] == TradeEvent(t, rows[ids[i]].published) {
          var i :| 0 <= i < |ids| && rows[ids[i]] == TradeEvent(t, rows[ids[i]].published);
          if i < |init| {
            assert init[i] == ids[i];
          }
        }
      }
    }
  }

  lemma {:induction false} MarksOf(rows: seq<OutboxRow>, ids: seq<nat>)
    requires forall i :: 0 <= i < |ids| ==> ids[i] < |rows|
    ensures forall k :: 0 <= k < |rows| ==> MarkPublished(rows, ids)[k] == if k in ids then Marked(rows[k]) else rows[k]
  {
    if ids != [] {
      var init := ids[..|ids| - 1];
      MarksOf(rows, init);
      assert ids == init + [ids[|ids| - 1]];
    }
  }

  lemma {:induction false} TradeRecordsFront(rows: seq<OutboxRow>, first: nat, rest: seq<nat>)
    requires first < |rows| && forall i :: 0 <= i < |rest| ==> rest[i] < |rows|
    ensures TradeRecords(rows, [first] + rest)
         == (if rows[first].TradeEvent? then [rows[first].trade] else []) + TradeRecords(rows, rest)
  {
    var all := [first] + rest;
    if rest == [] {
      assert all[..0] == [] && all[0] == first;
      assert TradeRecords(rows, []) == [];
    } else {
      var init := rest[..|rest| - 1];
      TradeRecordsFront(rows, first, init);
      assert all[..|all| - 1] == [first] + init;
    }
  }

  /** What lies before a position does not matter to the trades from there on. */
  lemma {:induction false} SameTradesFrom(one: seq<OutboxRow>, two: seq<OutboxRow>, from: nat)
    requires from <= |one| == |two| && forall k :: from <= k < |one| ==> one[k] == two[k]
    ensures TradesFrom(one, from) == TradesFrom(two, from)
    decreases |one| - from
  {
    if from < |one| {
      SameTradesFrom(one, two, from + 1);
    }
  }

  /** A batch carries the oldest of the pending trades, and the later ones stay pending, in order. */
  lemma {:induction false} BatchIsFront(rows: seq<OutboxRow>, from: nat, limit: nat)
    requires from <= |rows|
    ensures var ids := PendingBatch(rows, {}, from, limit);
            TradesFrom(rows, from) == TradeRecords(rows, ids) + TradesFrom(MarkPublished(rows, ids), from)
    decreases |rows| - from
  {
    hide MarkPublished, TradeRecords, TradesFrom;
    if from == |rows| || limit == 0 {
      NothingMarked(rows, from);
    } else if rows[from].published {
      BatchIsFront(rows, from + 1, limit);
      FrontIsPublished(rows, from);
      var ids := PendingBatch(rows, {}, from, limit);
      MarksOf(rows, ids);
      FrontIsPublished(MarkPublished(rows, ids), from);
    } else {
      BatchIsFront(rows, from + 1, limit - 1);
      FrontIsPending(rows, from, PendingBatch(rows, {}, from + 1, limit - 1));
    }
  }

  lemma {:induction false} FrontIsPending(rows: seq<OutboxRow>, from: nat, rest: seq<nat>)
    requires from < |rows| && !rows[from].published && forall i :: 0 <= i < |rest| ==> from < rest[i] < |rows|
    requires TradesFrom(rows, from + 1) == TradeRecords(rows, rest) + TradesFrom(MarkPublished(rows, rest), from + 1)
    ensures var ids := [from] + rest;
            TradesFrom(rows, from) == TradeRecords(rows, ids) + TradesFrom(MarkPublished(rows, ids), from)
  {
    hide TradeRecords, MarkPublished;
    var trade := if rows[from].TradeEvent? then [rows[from].trade] else [];
    var records, later := TradeRecords(rows, rest), TradesFrom(MarkPublished(rows, rest), from + 1);
    assert TradesFrom(rows, from) == trade + TradesFrom(rows, from + 1);
    TradeRecordsFront(rows, from, rest);
    MarkedFront(rows, from, rest);
    hide TradesFrom;
    assert trade + (records + later) == trade + records + later;
  }

  lemma NothingMarked(rows: seq<OutboxRow>, from: nat)
    requires from <= |rows|
    ensures TradesFrom(rows, from) == TradeRecords(rows, []) + TradesFrom(MarkPublished(rows, []), from)
  {
  }

  lemma FrontIsPublished(rows: seq<OutboxRow>, from: nat)
    requires from < |rows| && rows[from].published
    ensures TradesFrom(rows, from) == TradesFrom(rows, from + 1)
  {
  }

  /** A marked row no longer counts; the marks after it do as they would alone. */
  lemma {:induction false} MarkedFront(rows: seq<OutboxRow>, from: nat, rest: seq<nat>)
    requires from < |rows| && forall i :: 0 <= i < |rest| ==> from < rest[i] < |rows|
    ensures TradesFrom(MarkPublished(rows, [from] + rest), from) == TradesFrom(MarkPublished(rows, rest), from + 1)
  {
    var ids := [from] + rest;
    var after := MarkPublished(rows, ids);
    MarksOf(rows, ids);
    MarksOf(rows, rest);
    assert ids[0] == from && after[from].published;
    SameTradesFrom(after, MarkPublished(rows, rest), from + 1);
  }

  lemma {:induction false} MarkingCounts(rows: seq<OutboxRow>, ids: seq<nat>)
    requires forall i :: 0 <= i < |ids| ==> ids[i] < |rows| && !rows[ids[i]].published
    requires forall i, j :: 0 <= i < j < |ids| ==> ids[i] < ids[j]
    ensures Sum(MarkPublished(rows, ids), Pending()) == Sum(rows, Pending()) - |ids|
  {
    if ids != [] {
      var init, last := ids[..|ids| - 1], ids[|ids| - 1];
      MarkingCounts(rows, init);
      MarksOf(rows, init);
      var mid := MarkPublished(rows, init);
      assert last !in init && mid[last] == rows[last];
      SumUpdate(mid, last, Marked(mid[last]), Pending());
    }
  }

  /** An unfilled batch leaves nothing pending. */
  lemma {:induction false} UnfilledBatchIsAll(rows: seq<OutboxRow>, limit: nat)
    ensures var ids := PendingBatch(rows, {}, 0, limit);
            |ids| < limit ==> Sum(MarkPublished(rows, ids), Pending()) == 0
  {
    var ids := PendingBatch(rows, {}, 0, limit);
    MarksOf(rows, ids);
    if |ids| < limit {
      forall k | 0 <= k < |rows| ensures MarkPublished(rows, ids)[k].published {
        if !rows[k].published {
          BatchIsOldest(rows, {}, 0, limit, k);
        }
      }
      SumZero(MarkPublished(rows, ids), Pending());
    }
  }

  /**
   With no other relay at work an acknowledged batch publishes fifty rows, or all that are pending if they are fewer, and
   appends their trades to the topic: the oldest ones, in order.
   */
  lemma {:induction false} BatchPublishes(o: Outbox)
    ensures var d, pending := RelayBatch(o, {}, Acknowledged), Sum(o.rows, Pending());
            && 0 <= pending && Sum(d.rows, Pending()) == (if pending <= 50 then 0 else pending - 50)
            && |d.rows| == |o.rows| && o.matchingTopic <= d.matchingTopic
            && d.matchingTopic + TradesFrom(d.rows, 0) == o.matchingTopic + TradesFrom(o.rows, 0)
  {
    hide PendingBatch, MarkPublished, TradeRecords, TradesFrom;
    var ids := PendingBatch(o.rows, {}, 0, BATCH_SIZE);
    SumNonNegative(o.rows, Pending());
    SumNonNegative(MarkPublished(o.rows, ids), Pending());
    MarkingCounts(o.rows, ids);
    UnfilledBatchIsAll(o.rows, BATCH_SIZE);
    BatchIsFront(o.rows, 0, BATCH_SIZE);
    MarksOf(o.rows, ids);
    var records, later := TradeRecords(o.rows, ids), TradesFrom(MarkPublished(o.rows, ids), 0);
    assert o.matchingTopic + records + later == o.matchingTopic + (records + later);
  }

  lemma {:induction false} NothingPending(rows: seq<OutboxRow>, from: nat)
    requires from <= |rows| && forall k :: 0 <= k < |rows| ==> rows[k].published
    ensures TradesFrom(rows, from) == []
    decreases |rows| - from
  {
    if from < |rows| {
      NothingPending(rows, from + 1);
    }
  }

  lemma {:induction false} NoneCounted(rows: seq<OutboxRow>)
    requires Sum(rows, Pending()) == 0
    ensures forall k :: 0 <= k < |rows| ==> rows[k].published
  {
    if rows != [] {
      var init := rows[..|rows| - 1];
      SumNonNegative(init, Pending());
      NoneCounted(init);
      assert forall k :: 0 <= k < |init| ==> init[k] == rows[k];
    }
  }

  /**
   As many acknowledged batches as it takes, fifty rows each, empty the outbox: every row is published, and the topic has
   grown by exactly the trades that were pending, each once and in order.
   */
  lemma {:induction false} BatchesDrain(o: Outbox, batches: nat)
    requires Sum(o.rows, Pending()) <= 50 * batches
    ensures var d := RelayBatches(o, batches);
            && (forall k :: 0 <= k < |d.rows| ==> d.rows[k].published)
            && d.matchingTopic == o.matchingTopic + TradesFrom(o.rows, 0)
  {
    var d := RelayBatches(o, batches);
    BatchesProgress(o, batches);
    NoneCounted(d.rows);
    NothingPending(d.rows, 0);
    assert d.matchingTopic + [] == d.matchingTopic;
  }

  lemma {:induction false} BatchesProgress(o: Outbox, batches: nat)
    ensures var d, pending := RelayBatches(o, batches), Sum(o.rows, Pending());
            && Sum(d.rows, Pending()) == (if pending <= 50 * batches then 0 else pending - 50 * batches)
            && d.matchingTopic + TradesFrom(d.rows, 0) == o.matchingTopic + TradesFrom(o.rows, 0)
  {
    if batches > 0 {
      BatchesProgress(o, batches - 1);
      BatchPublishes(RelayBatches(o, batches - 1));
    } else {
      SumNonNegative(o.rows, Pending());
    }
  }

  /** A trade has one outbox row. */
  predicate OneRowPerTrade(rows: seq<OutboxRow>)
  {
    forall i, j :: 0 <= i < j < |rows| && rows[i].TradeEvent? && rows[j].TradeEvent? ==> rows[i].trade != rows[j].trade
  }

  lemma RecordsArePending(rows: seq<OutboxRow>, ids: seq<nat>)
    requires forall i :: 0 <= i < |ids| ==> ids[i] < |rows| && !rows[ids[i]].published
    ensures forall t :: t in TradeRecords(rows, ids) ==> t in PendingTrades(rows)
  {
    RecordsOf(rows, ids);
    forall t | t in TradeRecords(rows, ids) ensures t in PendingTrades(rows) {
      var i :| 0 <= i < |ids| && rows[ids[i]] == TradeEvent(t, rows[ids[i]].published);
      assert rows[ids[i]].trade == t;
    }
  }

  /** Marking a batch of rows takes exactly their trades out of the pending set. */
  lemma MarkingRemoves(rows: seq<OutboxRow>, ids: seq<nat>, t: nat)
    requires OneRowPerTrade(rows)
    requires forall i :: 0 <= i < |ids| ==> ids[i] < |rows| && !rows[ids[i]].published
    ensures t in PendingTrades(MarkPublished(rows, ids))
       <==> (t in PendingTrades(rows) && t !in TradeRecords(rows, ids))
  {
    var after := MarkPublished(rows, ids);
    MarksOf(rows, ids);
    RecordsOf(rows, ids);
    if t in PendingTrades(rows) {
      var k :| 0 <= k < |rows| && rows[k].TradeEvent? && !rows[k].published && rows[k].trade == t;
      if k in ids {
        var j :| 0 <= j < |ids| && ids[j] == k;
        assert rows[ids[j]] == TradeEvent(t, rows[ids[j]].published);
        assert forall x :: 0 <= x < |rows| && rows[x].TradeEvent? && rows[x].trade == t ==> x == k;
      } else {
        assert after[k] == rows[k];
        assert t !in TradeRecords(rows, ids) by {
          assert forall x :: 0 <= x < |rows| && rows[x].TradeEvent? && rows[x].trade == t ==> x == k;
        }
      }
    } else {
      assert forall k :: 0 <= k < |after| && after[k].TradeEvent? && !after[k].published ==> after[k] == rows[k];
    }
  }

  /** The relay's batch transaction is a Relay step of the channel: the row table and the set of pending trades agree. */
  lemma RelayBatchRefinesRelay(o: Outbox, busy: set<nat>, sending: Sending, c: Channel)
    requires OneRowPerTrade(o.rows) && c.pending == PendingTrades(o.rows) && c.log == o.matchingTopic
    ensures var batch := TradeRecords(o.rows, PendingBatch(o.rows, busy, 0, BATCH_SIZE));
            var d := Relay(c, batch, if sending.Interrupted? then sending.trades else 0, sending.Acknowledged?);
            && d.pending == PendingTrades(RelayBatch(o, busy, sending).rows)
            && d.log == RelayBatch(o, busy, sending).matchingTopic
            && d.cursor == c.cursor && d.committed == c.committed
  {
    var ids := PendingBatch(o.rows, busy, 0, BATCH_SIZE);
    var batch := TradeRecords(o.rows, ids);
    RecordsArePending(o.rows, ids);
    assert forall i :: 0 <= i < |batch| ==> batch[i] in batch;
    if sending.Acknowledged? {
      forall t: nat ensures t in PendingTrades(MarkPublished(o.rows, ids)) <==> (t in c.pending && t !in batch) {
        MarkingRemoves(o.rows, ids, t);
      }
    }
  }

  // ---------------------------------------------------------------------------------------------------------
  // The consumer loop
  // ---------------------------------------------------------------------------------------------------------

  datatype Progress = Progress(books: Books, processed: set<nat>, deadLettered: set<nat>, cursor: nat)

  /** How the handler of a message ends; an error that reads like a poison pill is sent to the dead-letter topic. */
  datatype Attempt = Succeeds | FailsTransiently | FailsAsPoison(deadLettered: bool)

  /** One message: handled, or dead-lettered, and resolved; or left where it is. */
  function ConsumeOne(trades: seq<Trade>, log: seq<nat>, p: Progress, attempt: Attempt): Progress
  {
    if p.cursor < |log| && log[p.cursor] < |trades| then
      var id := log[p.cursor];
      var r := Handle(p.books, p.processed, trades[id], id, !attempt.Succeeds?);
      var buried := !r.handled && attempt == FailsAsPoison(true);
      Progress(r.books, r.processed, if buried then p.deadLettered + {id} else p.deadLettered,
               if r.handled || buried then p.cursor + 1 else p.cursor)
    else p
  }

  /** A batch: message after message until one is not resolved or the consumer stops. */
  function ConsumeBatch(trades: seq<Trade>, log: seq<nat>, p: Progress, attempts: seq<Attempt>): Progress
    decreases attempts
  {
    if attempts == [] || p.cursor >= |log| || log[p.cursor] >= |trades| then p
    else
      var q := ConsumeOne(trades, log, p, attempts[0]);
      if q.cursor == p.cursor then q else ConsumeBatch(trades, log, q, attempts[1..])
  }

  /** A message's offset is resolved: its event is a self-trade, or settled or known, or sent to the dead-letter topic. */
  predicate Resolves(t: Trade, attempt: Attempt)
  {
    t.buyer == t.seller || attempt == Succeeds || attempt == FailsAsPoison(true)
  }

  /** The events among the next messages, self-trades aside, whose handling ends in the given way. */
  function Ended(trades: seq<Trade>, log: seq<nat>, cursor: nat, attempts: seq<Attempt>, how: Attempt): set<nat>
    requires cursor + |attempts| <= |log| && Logged(trades, log)
  {
    set i | 0 <= i < |attempts| && attempts[i] == how
            && trades[log[cursor + i]].buyer != trades[log[cursor + i]].seller :: log[cursor + i]
  }

  lemma OneMessageEnds(trades: seq<Trade>, log: seq<nat>, p: Progress, attempt: Attempt)
    requires p.cursor < |log| && log[p.cursor] < |trades|
    ensures var id, q := log[p.cursor], ConsumeOne(trades, log, p, attempt);
            var genuine := trades[id].buyer != trades[id].seller;
            && q.cursor == p.cursor + (if Resolves(trades[id], attempt) then 1 else 0)
            && q.processed == p.processed + (if genuine && attempt == Succeeds then {id} else {})
            && q.deadLettered == p.deadLettered + (if genuine && attempt == FailsAsPoison(true) then {id} else {})
  {
  }

  predicate Logged(trades: seq<Trade>, log: seq<nat>)
  {
    forall i :: 0 <= i < |log| ==> log[i] < |trades|
  }

  /** The loop gets past the next message. */
  predicate GetsPast(trades: seq<Trade>, log: seq<nat>, cursor: nat, attempts: seq<Attempt>, i: nat)
    requires Logged(trades, log)
  {
    i < |attempts| && cursor + i < |log| && Resolves(trades[log[cursor + i]], attempts[i])
  }

  /** After k messages, those handled are settled or known, those that failed as a poison pill are dead-lettered. */
  predicate EndsAfter(trades: seq<Trade>, log: seq<nat>, p: Progress, attempts: seq<Attempt>, k: nat, q: Progress)
    requires Logged(trades, log)
  {
    && k <= |attempts| && p.cursor + k <= |log| && q.cursor == p.cursor + k
    && q.processed == p.processed + Ended(trades, log, p.cursor, attempts[..k], Succeeds)
    && q.deadLettered == p.deadLettered + Ended(trades, log, p.cursor, attempts[..k], FailsAsPoison(true))
  }

  /** The loop takes the messages in order up to the first whose offset it cannot resolve, or until it is stopped. */
  lemma {:induction false} BatchEnds(trades: seq<Trade>, log: seq<nat>, p: Progress, attempts: seq<Attempt>, k: nat)
    requires Logged(trades, log) && p.cursor <= |log|
    requires (forall i :: 0 <= i < k ==> GetsPast(trades, log, p.cursor, attempts, i))
    requires !GetsPast(trades, log, p.cursor, attempts, k)
    ensures EndsAfter(trades, log, p, attempts, k, ConsumeBatch(trades, log, p, attempts))
    decreases k
  {
    hide ConsumeOne, EndsAfter, GetsPast, ConsumeBatch;
    if k == 0 {
      BatchStops(trades, log, p, attempts);
    } else {
      assert GetsPast(trades, log, p.cursor, attempts, 0);
      BatchGoesOn(trades, log, p, attempts);
      var q := ConsumeOne(trades, log, p, attempts[0]);
      forall i: nat ensures GetsPast(trades, log, q.cursor, attempts[1..], i)
                       <==> GetsPast(trades, log, p.cursor, attempts, i + 1) {
        PastFirst(trades, log, p.cursor, attempts, i);
      }
      BatchEnds(trades, log, q, attempts[1..], k - 1);
      EndsFront(trades, log, p, q, attempts, k, ConsumeBatch(trades, log, q, attempts[1..]));
    }
  }

  lemma PastFirst(trades: seq<Trade>, log: seq<nat>, cursor: nat, attempts: seq<Attempt>, i: nat)
    requires Logged(trades, log) && attempts != []
    ensures GetsPast(trades, log, cursor + 1, attempts[1..], i) <==> GetsPast(trades, log, cursor, attempts, i + 1)
  {
    assert cursor + 1 + i == cursor + (i + 1);
  }

  lemma BatchGoesOn(trades: seq<Trade>, log: seq<nat>, p: Progress, attempts: seq<Attempt>)
    requires Logged(trades, log) && GetsPast(trades, log, p.cursor, attempts, 0)
    ensures attempts != []
    ensures var q := ConsumeOne(trades, log, p, attempts[0]);
            && p.cursor < |log| && q.cursor == p.cursor + 1
            && ConsumeBatch(trades, log, p, attempts) == ConsumeBatch(trades, log, q, attempts[1..])
            && EndsAfter(trades, log, p, attempts, 1, q)
  {
    hide ConsumeOne;
    OneMessageEnds(trades, log, p, attempts[0]);
    EndedFront(trades, log, p.cursor, attempts[..1], Succeeds);
    EndedFront(trades, log, p.cursor, attempts[..1], FailsAsPoison(true));
  }

  lemma {:induction false} EndsFront(trades: seq<Trade>, log: seq<nat>, p: Progress, q: Progress,
                                     attempts: seq<Attempt>, k: nat, r: Progress)
    requires Logged(trades, log) && 0 < k && EndsAfter(trades, log, p, attempts, 1, q)
    requires EndsAfter(trades, log, q, attempts[1..], k - 1, r)
    ensures EndsAfter(trades, log, p, attempts, k, r)
  {
    hide Ended;
    assert attempts[..k][1..] == attempts[1..][..k - 1] && attempts[..1][1..] == [];
    assert k <= |attempts|;
    EndedFront(trades, log, p.cursor, attempts[..k], Succeeds);
    EndedFront(trades, log, p.cursor, attempts[..k], FailsAsPoison(true));
    EndedFront(trades, log, p.cursor, attempts[..1], Succeeds);
    EndedFront(trades, log, p.cursor, attempts[..1], FailsAsPoison(true));
    EndedNone(trades, log, p.cursor + 1, Succeeds);
    EndedNone(trades, log, p.cursor + 1, FailsAsPoison(true));
  }

  lemma EndedNone(trades: seq<Trade>, log: seq<nat>, cursor: nat, how: Attempt)
    requires Logged(trades, log) && cursor <= |log|
    ensures Ended(trades, log, cursor, [], how) == {}
  {
  }

  lemma {:induction false} BatchStops(trades: seq<Trade>, log: seq<nat>, p: Progress, attempts: seq<Attempt>)
    requires Logged(trades, log) && p.cursor <= |log| && !GetsPast(trades, log, p.cursor, attempts, 0)
    ensures EndsAfter(trades, log, p, attempts, 0, ConsumeBatch(trades, log, p, attempts))
  {
    hide ConsumeOne;
    if attempts != [] && p.cursor < |log| {
      OneMessageEnds(trades, log, p, attempts[0]);
    }
  }

  lemma EndedFront(trades: seq<Trade>, log: seq<nat>, cursor: nat, attempts: seq<Attempt>, how: Attempt)
    requires attempts != [] && cursor + |attempts| <= |log| && Logged(trades, log)
    ensures Ended(trades, log, cursor, attempts, how)
         == Ended(trades, log, cursor + 1, attempts[1..], how)
            + (if attempts[0] == how && trades[log[cursor]].buyer != trades[log[cursor]].seller then {log[cursor]} else {})
  {
    var rest := attempts[1..];
    forall id | id in Ended(trades, log, cursor + 1, rest, how) ensures id in Ended(trades, log, cursor, attempts, how) {
      var i :| 0 <= i < |rest| && rest[i] == how && log[cursor + 1 + i] == id
               && trades[log[cursor + 1 + i]].buyer != trades[log[cursor + 1 + i]].seller;
      assert attempts[i + 1] == how && log[cursor + (i + 1)] == id;
    }
    forall id | id in Ended(trades, log, cursor, attempts, how) && id != log[cursor]
      ensures id in Ended(trades, log, cursor + 1, rest, how)
    {
      var i :| 0 <= i < |attempts| && attempts[i] == how && log[cursor + i] == id
               && trades[log[cursor + i]].buyer != trades[log[cursor + i]].seller;
      assert rest[i - 1] == how && log[cursor + 1 + (i - 1)] == id;
    }
    if attempts[0] == how && trades[log[cursor]].buyer != trades[log[cursor]].seller {
      assert log[cursor + 0] in Ended(trades, log, cursor, attempts, how);
    }
    if log[cursor] in Ended(trades, log, cursor, attempts, how)
       && !(attempts[0] == how && trades[log[cursor]].buyer != trades[log[cursor]].seller) {
      var i :| 0 <= i < |attempts| && attempts[i] == how && log[cursor + i] == log[cursor]
               && trades[log[cursor + i]].buyer != trades[log[cursor + i]].seller;
      assert rest[i - 1] == how && log[cursor + 1 + (i - 1)] == log[cursor];
    }
  }

  class SettlementLoop {
    const consumer: TradesSettlementConsumer
    var deadLettered: set<nat>
    var cursor: nat

    constructor (consumer: TradesSettlementConsumer)
      ensures this.consumer == consumer && deadLettered == {} && cursor == 0
    {
      this.consumer := consumer;
      deadLettered, cursor := {}, 0;
    }

    ghost function View(): Progress
      reads this, consumer, consumer.balances
    {
      Progress(consumer.balances.View(), consumer.processed, deadLettered, cursor)
    }

    /**
     processBatch of the base consumer. The list says for each message the loop gets to how its handler ends; its end
     is where the consumer stops running. A transient failure is thrown on, its offset unresolved.
     */
    method ProcessBatch(trades: seq<Trade>, log: seq<nat>, attempts: seq<Attempt>)
      modifies this, consumer, consumer.balances
      ensures View() == ConsumeBatch(trades, log, old(View()), attempts)
    {
      var i := 0;
      assert attempts[0..] == attempts;
      while i < |attempts|
        invariant 0 <= i <= |attempts|
        invariant ConsumeBatch(trades, log, View(), attempts[i..]) == ConsumeBatch(trades, log, old(View()), attempts)
      {
        assert attempts[i..][0] == attempts[i] && attempts[i..][1..] == attempts[i + 1..];
        if cursor >= |log| || log[cursor] >= |trades| {
          return;
        }
        var handled := consumer.HandleMessage(trades[log[cursor]], log[cursor], !attempts[i].Succeeds?);
        if !handled {
          if attempts[i] != FailsAsPoison(true) {
            return;
          }
          deadLettered := deadLettered + {log[cursor]};
        }
        cursor := cursor + 1;
        i := i + 1;
      }
    }
  }
}
