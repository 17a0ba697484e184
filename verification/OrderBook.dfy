/**
 The live order book: a sorted set of (price, order id) for each pair and side, and a hash of details for each order.
 The sorted sets behave as in Redis: members are ordered by score, then id, and an empty set does not exist.
 */
module OrderBook {
  import opened Wrappers
  import opened Domain
  import opened Sums

  datatype Member = Member(score: nat, id: OrderId)

  /** The details hash of a resting order. */
  datatype Entry = Entry(id: OrderId, user: UserId, pair: Pair, side: Side, price: nat, amount: nat, remaining: nat)

  datatype ZKey = ZKey(pair: Pair, side: Side)

  datatype Book = Book(zsets: map<ZKey, seq<Member>>, details: map<OrderId, Entry>)

  predicate Before(a: Member, b: Member)
  {
    a.score < b.score || (a.score == b.score && a.id < b.id)
  }

  predicate Sorted(z: seq<Member>)
  {
    forall i, j :: 0 <= i < j < |z| ==> Before(z[i], z[j])
  }

  function ZRem(z: seq<Member>, id: OrderId): seq<Member>
  {
    if z == [] then [] else if z[0].id == id then ZRem(z[1..], id) else [z[0]] + ZRem(z[1..], id)
  }

  function Insert(z: seq<Member>, x: Member): seq<Member>
  {
    if z == [] then [x] else if Before(x, z[0]) then [x] + z else [z[0]] + Insert(z[1..], x)
  }

  lemma {:induction false} ZRemMembers(z: seq<Member>, id: OrderId)
    ensures forall m :: m in ZRem(z, id) <==> (m in z && m.id != id)
    ensures Sorted(z) ==> Sorted(ZRem(z, id))
  {
    if z != [] {
      ZRemMembers(z[1..], id);
      assert z == [z[0]] + z[1..];
      if Sorted(z) && z[0].id != id {
        SortedFront(z[0], z[1..], ZRem(z[1..], id));
      }
    }
  }

  lemma {:induction false} InsertMembers(z: seq<Member>, x: Member)
    ensures forall m :: m in Insert(z, x) <==> (m in z || m == x)
    ensures Sorted(z) && (forall m :: m in z ==> m.id != x.id) ==> Sorted(Insert(z, x))
  {
    if z != [] {
      assert z == [z[0]] + z[1..];
      InsertMembers(z[1..], x);
      if Sorted(z) && !Before(x, z[0]) && (forall m :: m in z ==> m.id != x.id) {
        assert z[0] in z;
        SortedFront(z[0], [x] + z[1..], Insert(z[1..], x));
      }
    }
  }

  /** A member that is before all of one list stays in front of any sorted list with no other members. */
  lemma SortedFront(first: Member, z: seq<Member>, r: seq<Member>)
    requires forall i :: 0 <= i < |z| ==> Before(first, z[i])
    requires Sorted(r) && forall m :: m in r ==> m in z
    ensures Sorted([first] + r)
  {
    forall i | 0 <= i < |r| ensures Before(first, r[i]) {
      assert r[i] in z;
    }
  }

  /** ZADD: a known member moves to its new score. */
  function ZAdd(z: seq<Member>, x: Member): seq<Member>
  {
    Insert(ZRem(z, x.id), x)
  }

  lemma ZAddMembers(z: seq<Member>, x: Member)
    ensures forall m :: m in ZAdd(z, x) <==> (m == x || (m in z && m.id != x.id))
    ensures Sorted(z) ==> Sorted(ZAdd(z, x))
  {
    ZRemMembers(z, x.id);
    InsertMembers(ZRem(z, x.id), x);
  }

  function ZSet(b: Book, k: ZKey): seq<Member>
  {
    if k in b.zsets then b.zsets[k] else []
  }

  function WithZSet(b: Book, k: ZKey, z: seq<Member>): Book
  {
    if z == [] then b.(zsets := b.zsets - {k}) else b.(zsets := b.zsets[k := z])
  }

  function Add(b: Book, e: Entry): Book
  {
    var k := ZKey(e.pair, e.side);
    WithZSet(b, k, ZAdd(ZSet(b, k), Member(e.price, e.id))).(details := b.details[e.id := e])
  }

  /** HSET of one field; a hash without an order id reads back as absent, so a missing order stays missing. */
  function UpdateRemaining(b: Book, id: OrderId, remaining: nat): Book
  {
    if id in b.details then b.(details := b.details[id := b.details[id].(remaining := remaining)]) else b
  }

  function Remove(b: Book, id: OrderId, pair: Pair, side: Side): Book
  {
    var k := ZKey(pair, side);
    WithZSet(b, k, ZRem(ZSet(b, k), id)).(details := b.details - {id})
  }

  function Reverse<T>(s: seq<T>): (r: seq<T>)
    ensures |r| == |s|
  {
    seq(|s|, i requires 0 <= i < |s| => s[|s| - 1 - i])
  }

  /** ZRANGE from 0 to end inclusive; -1 is the last member. */
  function ZRange(z: seq<Member>, end: int, reverse: bool): seq<Member>
    requires end >= -1
  {
    var directed := if reverse then Reverse(z) else z;
    if end == -1 || end >= |z| then directed else directed[..end + 1]
  }

  /** The details of the given members, in order, without those whose hash is gone. */
  function Lookup(details: map<OrderId, Entry>, ids: seq<Member>): seq<Entry>
  {
    if ids == [] then []
    else
      Lookup(details, ids[..|ids| - 1])
      + (if ids[|ids| - 1].id in details then [details[ids[|ids| - 1].id]] else [])
  }

  lemma LookupNext(details: map<OrderId, Entry>, ids: seq<Member>, i: nat)
    requires i < |ids|
    ensures Lookup(details, ids[..i + 1])
         == if ids[i].id in details then Lookup(details, ids[..i]) + [details[ids[i].id]] else Lookup(details, ids[..i])
  {
    assert ids[..i + 1][..i] == ids[..i];
  }

  const CANDIDATES := 50

  /** Lowest asks for a buyer, highest bids for a seller. */
  function BestOpposing(b: Book, pair: Pair, taker: Side): seq<Entry>
  {
    Lookup(b.details, ZRange(ZSet(b, ZKey(pair, taker.Opposite())), CANDIDATES - 1, taker == SELL))
  }

  function AddAll(b: Book, entries: seq<Entry>): Book
  {
    if entries == [] then b else Add(AddAll(b, entries[..|entries| - 1]), entries[|entries| - 1])
  }

  function RemainingAt(price: nat): Entry -> int
  {
    (e: Entry) => if e.price == price then e.remaining else 0
  }

  function CountAt(price: nat): Entry -> int
  {
    (e: Entry) => if e.price == price then 1 else 0
  }

  // ---------------------------------------------------------------------------------------------------------
  // Depth
  // ---------------------------------------------------------------------------------------------------------

  /** An aggregated price level of the depth view. */
  datatype Level = Level(price: nat, amount: int, count: int)

  /** The prices of the entries, each once, in the order they first appear. */
  function Prices(entries: seq<Entry>): seq<nat>
  {
    if entries == [] then []
    else
      var earlier := Prices(entries[..|entries| - 1]);
      var price := entries[|entries| - 1].price;
      if price in earlier then earlier else earlier + [price]
  }

  function LevelAt(entries: seq<Entry>, price: nat): Level
  {
    Level(price, Sum(entries, RemainingAt(price)), Sum(entries, CountAt(price)))
  }

  /** How many levels are kept: the length is checked after a level was pushed, so one is kept even for depth 0. */
  function Kept(levels: nat, depth: nat): nat
  {
    Min(levels, if depth == 0 then 1 else depth)
  }

  function Levels(entries: seq<Entry>, depth: nat): seq<Level>
  {
    seq(Kept(|Prices(entries)|, depth), i requires 0 <= i < Kept(|Prices(entries)|, depth) =>
      LevelAt(entries, Prices(entries)[i]))
  }

  /** The members getOrderBook reads of one side, best price first; depth 0 reads to the end. */
  function Window(b: Book, k: ZKey, depth: nat): seq<Member>
  {
    ZRange(ZSet(b, k), depth * 2 - 1, k.side == BUY)
  }

  function DepthOf(b: Book, k: ZKey, depth: nat): seq<Level>
  {
    Levels(Lookup(b.details, Window(b, k, depth)), depth)
  }

  lemma {:induction false} PricesMeaning(entries: seq<Entry>)
    ensures forall i :: 0 <= i < |entries| ==> entries[i].price in Prices(entries)
    ensures forall p :: p in Prices(entries) ==> exists i :: 0 <= i < |entries| && entries[i].price == p
    ensures forall i, j :: 0 <= i < j < |Prices(entries)| ==> Prices(entries)[i] != Prices(entries)[j]
  {
    if entries != [] {
      var init := entries[..|entries| - 1];
      PricesMeaning(init);
      forall p | p in Prices(entries) ensures exists i :: 0 <= i < |entries| && entries[i].price == p {
        if p in Prices(init) {
          var i :| 0 <= i < |init| && init[i].price == p;
          assert entries[i].price == p;
        } else {
          assert entries[|entries| - 1].price == p;
        }
      }
      forall i | 0 <= i < |entries| ensures entries[i].price in Prices(entries) {
        if i < |init| {
          assert entries[i] == init[i];
        }
      }
    }
  }

  /** The price map after some entries: their prices in order, and a level for each. */
  ghost predicate Mapped(entries: seq<Entry>, prices: seq<nat>, data: map<nat, Level>)
  {
    prices == Prices(entries) && (forall p :: p in data <==> p in prices)
    && forall p :: p in data ==> data[p] == LevelAt(entries, p)
  }

  lemma NothingMapped(details: map<OrderId, Entry>, ids: seq<Member>)
    ensures Mapped(Lookup(details, ids[..0]), [], map[])
  {
  }

  lemma MappedNext(entries: seq<Entry>, e: Entry, prices: seq<nat>, data: map<nat, Level>)
    requires Mapped(entries, prices, data)
    ensures e.price in data ==>
              Mapped(entries + [e], prices,
                     data[e.price := Level(e.price, data[e.price].amount + e.remaining, data[e.price].count + 1)])
    ensures e.price !in data ==>
              Mapped(entries + [e], prices + [e.price], data[e.price := Level(e.price, e.remaining, 1)])
  {
    var more := entries + [e];
    assert more[..|entries|] == entries;
    forall p: nat
      ensures LevelAt(more, p) == if p == e.price then Level(p, LevelAt(entries, p).amount + e.remaining,
                                                            LevelAt(entries, p).count + 1) else LevelAt(entries, p)
    {
      SumAppend(entries, e, RemainingAt(p));
      SumAppend(entries, e, CountAt(p));
    }
    if e.price !in data {
      PricesMeaning(entries);
      SumZero(entries, RemainingAt(e.price));
      SumZero(entries, CountAt(e.price));
    }
  }

  /** A sorted set is determined by its members. */
  lemma {:induction false} SortedIsUnique(a: seq<Member>, b: seq<Member>)
    requires Sorted(a) && Sorted(b) && (forall m :: m in a <==> m in b)
    ensures a == b
  {
    assert a != [] ==> a[0] in b;
    assert b != [] ==> b[0] in a;
    if a != [] && b != [] {
      assert a[0] == b[0];
      assert Sorted(a[1..]) && Sorted(b[1..]);
      forall m ensures m in a[1..] <==> m in b[1..] {
        assert m in a <==> m == a[0] || m in a[1..];
        assert m in b <==> m == b[0] || m in b[1..];
      }
      SortedIsUnique(a[1..], b[1..]);
    }
  }

  class OrderbookService {
    var zsets: map<ZKey, seq<Member>>
    var details: map<OrderId, Entry>

    ghost function View(): Book
      reads this
    {
      Book(zsets, details)
    }

    constructor ()
      ensures View() == Book(map[], map[])
    {
      zsets, details := map[], map[];
    }

    method ZAddMember(k: ZKey, m: Member)
      modifies this`zsets
      ensures View() == WithZSet(old(View()), k, ZAdd(ZSet(old(View()), k), m))
    {
      var z := if k in zsets then zsets[k] else [];
      zsets := zsets[k := ZAdd(z, m)];
      ZAddMembers(z, m);
      assert m in ZAdd(z, m);
    }

    method ZRemMember(k: ZKey, id: OrderId)
      modifies this`zsets
      ensures View() == WithZSet(old(View()), k, ZRem(ZSet(old(View()), k), id))
    {
      var z := ZRem(if k in zsets then zsets[k] else [], id);
      zsets := if z == [] then zsets - {k} else zsets[k := z];
    }

    method ZRangeMembers(k: ZKey, end: int, reverse: bool) returns (ids: seq<Member>)
      requires end >= -1
      ensures ids == ZRange(ZSet(View(), k), end, reverse)
    {
      ids := ZRange(if k in zsets then zsets[k] else [], end, reverse);
    }

    method AddOrder(e: Entry)
      modifies this
      ensures View() == Add(old(View()), e)
    {
      ZAddMember(ZKey(e.pair, e.side), Member(e.price, e.id));
      details := details[e.id := e];
    }

    method UpdateRemainingAmount(id: OrderId, remaining: nat)
      modifies this
      ensures View() == UpdateRemaining(old(View()), id, remaining)
    {
      if id in details {
        details := details[id := details[id].(remaining := remaining)];
      }
    }

    method RemoveOrder(id: OrderId, pair: Pair, side: Side)
      modifies this
      ensures View() == Remove(old(View()), id, pair, side)
    {
      ZRemMember(ZKey(pair, side), id);
      details := details - {id};
    }

    method GetOrderDetails(id: OrderId) returns (entry: Option<Entry>)
      ensures entry == if id in details then Some(details[id]) else None
    {
      entry := if id in details then Some(details[id]) else None;
    }

    method GetBestOpposingOrders(pair: Pair, taker: Side) returns (entries: seq<Entry>)
      ensures entries == BestOpposing(View(), pair, taker)
    {
      var ids := ZRangeMembers(ZKey(pair, taker.Opposite()), CANDIDATES - 1, taker == SELL);
      entries := [];
      var i := 0;
      while i < |ids|
        invariant 0 <= i <= |ids|
        invariant entries == Lookup(details, ids[..i])
      {
        var entry := GetOrderDetails(ids[i].id);
        LookupNext(details, ids, i);
        if entry.Some? {
          entries := entries + [entry.value];
        }
        i := i + 1;
      }
      assert ids[..i] == ids;
    }

    /** The total remaining at a price over the first 501 members of a side. */
    method GetLevelTotalQuantity(pair: Pair, side: Side, price: nat) returns (total: int)
      ensures total == LevelTotal(View(), pair, side, price)
    {
      var ids := ZRangeMembers(ZKey(pair, side), LEVEL_WINDOW - 1, false);
      total := 0;
      var i := 0;
      while i < |ids|
        invariant 0 <= i <= |ids|
        invariant total == Sum(Lookup(details, ids[..i]), RemainingAt(price))
      {
        var entry := GetOrderDetails(ids[i].id);
        LookupNext(details, ids, i);
        if entry.Some? {
          SumAppend(Lookup(details, ids[..i]), entry.value, RemainingAt(price));
          if entry.value.price == price {
            total := total + entry.value.remaining;
          }
        }
        i := i + 1;
      }
      assert ids[..i] == ids;
    }

    /** Builds the map from price to level, in order of first appearance. */
    method BuildPriceMap(ids: seq<Member>) returns (prices: seq<nat>, data: map<nat, Level>)
      ensures Mapped(Lookup(details, ids), prices, data)
    {
      hide Mapped, Lookup;
      prices, data := [], map[];
      NothingMapped(details, ids);
      var i := 0;
      while i < |ids|
        invariant 0 <= i <= |ids|
        invariant Mapped(Lookup(details, ids[..i]), prices, data)
      {
        var entry := GetOrderDetails(ids[i].id);
        LookupNext(details, ids, i);
        if entry.Some? {
          var e := entry.value;
          MappedNext(Lookup(details, ids[..i]), e, prices, data);
          if e.price in data {
            var current := data[e.price];
            data := data[e.price := Level(e.price, current.amount + e.remaining, current.count + 1)];
          } else {
            data := data[e.price := Level(e.price, e.remaining, 1)];
            prices := prices + [e.price];
          }
        }
        i := i + 1;
      }
      assert ids[..i] == ids;
    }

    method AggregateLevels(ids: seq<Member>, maxDepth: nat) returns (levels: seq<Level>)
      ensures levels == Levels(Lookup(details, ids), maxDepth)
    {
      var prices, data := BuildPriceMap(ids);
      ghost var entries := Lookup(details, ids);
      levels := [];
      var i := 0;
      while i < |prices|
        invariant 0 <= i <= |prices| && |levels| == i
        invariant i == 0 || i < (if maxDepth == 0 then 1 else maxDepth)
        invariant forall j :: 0 <= j < i ==> levels[j] == LevelAt(entries, prices[j])
      {
        levels := levels + [data[prices[i]]];
        i := i + 1;
        if |levels| >= maxDepth {
          break;
        }
      }
      assert |levels| == Kept(|prices|, maxDepth);
    }

    method GetOrderBook(pair: Pair, depth: nat) returns (bids: seq<Level>, asks: seq<Level>)
      ensures bids == DepthOf(View(), ZKey(pair, BUY), depth)
      ensures asks == DepthOf(View(), ZKey(pair, SELL), depth)
    {
      var bidOrderIds := ZRangeMembers(ZKey(pair, BUY), depth * 2 - 1, true);
      var askOrderIds := ZRangeMembers(ZKey(pair, SELL), depth * 2 - 1, false);
      bids := AggregateLevels(bidOrderIds, depth);
      asks := AggregateLevels(askOrderIds, depth);
    }

    method Rehydrate(active: seq<Entry>)
      modifies this
      ensures View() == AddAll(old(View()), active)
    {
      var i := 0;
      while i < |active|
        invariant 0 <= i <= |active|
        invariant View() == AddAll(old(View()), active[..i])
      {
        AddOrder(active[i]);
        assert active[..i + 1][..i] == active[..i];
        i := i + 1;
      }
      assert active[..i] == active;
    }
  }

  const LEVEL_WINDOW := 501

  function LevelTotal(b: Book, pair: Pair, side: Side, price: nat): int
  {
    Sum(Lookup(b.details, ZRange(ZSet(b, ZKey(pair, side)), LEVEL_WINDOW - 1, false)), RemainingAt(price))
  }
}
