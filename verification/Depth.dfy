/** The depth view agrees with the book it is built from. */
module Depth {
  import opened Domain
  import opened Sums
  import opened OrderBook
  import opened Matching
  import opened Agreement

  function Weight(details: map<OrderId, Entry>, f: Entry -> int): Member -> int
  {
    (m: Member) => if m.id in details then f(details[m.id]) else 0
  }

  /** Reading a window backwards or forwards, its entries weigh the same. */
  lemma {:induction false} SumLookup(details: map<OrderId, Entry>, ids: seq<Member>, f: Entry -> int)
    ensures Sum(Lookup(details, ids), f)
         == Sum(ids, Weight(details, f))
  {
    if ids != [] {
      var init, last := ids[..|ids| - 1], ids[|ids| - 1];
      SumLookup(details, init, f);
      if last.id in details {
        SumAppend(Lookup(details, init), details[last.id], f);
      } else {
        assert Lookup(details, init) + [] == Lookup(details, init);
      }
    }
  }

  lemma {:induction false} SumReverse<T>(s: seq<T>, f: T -> int)
    ensures Sum(Reverse(s), f) == Sum(s, f)
  {
    if s != [] {
      var init, last := s[..|s| - 1], s[|s| - 1];
      SumReverse(init, f);
      assert Reverse(s) == [last] + Reverse(init);
      SumFront(Reverse(s), f);
    }
  }

  /** The entries a depth read of one side fetches. */
  function Read(b: Book, k: ZKey, depth: nat): seq<Entry>
  {
    Lookup(b.details, Window(b, k, depth))
  }

  predicate Better(side: Side, a: nat, b: nat)
  {
    if side == BUY then a > b else a < b
  }

  /** The fetched entries of an agreeing book come best price first. */
  lemma ReadIsOrdered(rows: seq<Order>, b: Book, n: nat, k: ZKey, depth: nat)
    requires Agrees(rows, b, n)
    ensures forall i, j :: 0 <= i < j < |Read(b, k, depth)| ==>
              !Better(k.side, Read(b, k, depth)[j].price, Read(b, k, depth)[i].price)
  {
    var ids := Window(b, k, depth);
    forall i | 0 <= i < |ids| ensures ids[i].id in b.details && b.details[ids[i].id].price == ids[i].score {
      WindowMember(rows, b, n, k, depth, i);
    }
    LookupAll(b.details, ids);
    forall i, j | 0 <= i < j < |ids| ensures !Better(k.side, ids[j].score, ids[i].score) {
      WindowIsSorted(b, k, depth, i, j);
    }
  }

  lemma WindowMember(rows: seq<Order>, b: Book, n: nat, k: ZKey, depth: nat, i: nat)
    requires Agrees(rows, b, n) && i < |Window(b, k, depth)|
    ensures var m := Window(b, k, depth)[i]; m.id in b.details && b.details[m.id].price == m.score
  {
    var z, m := ZSet(b, k), Window(b, k, depth)[i];
    assert m == if k.side == BUY then z[|z| - 1 - i] else z[i];
    assert m in z;
    assert InSet(rows, n, k, m);
  }

  lemma WindowIsSorted(b: Book, k: ZKey, depth: nat, i: nat, j: nat)
    requires SetsSorted(b) && i < j < |Window(b, k, depth)|
    ensures !Better(k.side, Window(b, k, depth)[j].score, Window(b, k, depth)[i].score)
  {
    assert Sorted(ZSet(b, k));
    RangeIsSorted(ZSet(b, k), depth * 2 - 1, k.side == BUY, i, j);
  }

  lemma RangeIsSorted(z: seq<Member>, end: int, reverse: bool, i: nat, j: nat)
    requires end >= -1 && Sorted(z) && i < j < |ZRange(z, end, reverse)|
    ensures var r := ZRange(z, end, reverse); if reverse then r[j].score <= r[i].score else r[i].score <= r[j].score
  {
    if reverse {
      assert Before(z[|z| - 1 - j], z[|z| - 1 - i]);
    } else {
      assert Before(z[i], z[j]);
    }
  }

  /** Ordered entries have strictly ordered distinct prices. */
  lemma {:induction false} OrderedPrices(side: Side, entries: seq<Entry>)
    requires forall i, j :: 0 <= i < j < |entries| ==> !Better(side, entries[j].price, entries[i].price)
    ensures forall i, j :: 0 <= i < j < |Prices(entries)| ==> Better(side, Prices(entries)[i], Prices(entries)[j])
  {
    if entries != [] {
      var init, last := entries[..|entries| - 1], entries[|entries| - 1].price;
      assert forall i :: 0 <= i < |init| ==> init[i] == entries[i];
      OrderedPrices(side, init);
      PricesMeaning(init);
      if last !in Prices(init) {
        forall i | 0 <= i < |Prices(init)| ensures Better(side, Prices(init)[i], last) {
          var p := Prices(init)[i];
          assert p in Prices(init);
          var m :| 0 <= m < |init| && init[m].price == p;
          assert !Better(side, last, entries[m].price);
        }
      }
    }
  }

  /**
   Each side of the view runs strictly from the best price on, and every level's amount and count are the sums over
   all fetched orders at its price; a fetched order's price is missing only if the view was cut at its depth.
   */
  lemma LevelsAreOrderedSums(rows: seq<Order>, b: Book, n: nat, k: ZKey, depth: nat)
    requires Agrees(rows, b, n)
    ensures var levels, read := DepthOf(b, k, depth), Read(b, k, depth);
            && (forall i, j :: 0 <= i < j < |levels| ==> Better(k.side, levels[i].price, levels[j].price))
            && (forall i :: 0 <= i < |levels| ==>
                  && levels[i].amount == Sum(read, RemainingAt(levels[i].price))
                  && levels[i].count == Sum(read, CountAt(levels[i].price)))
            && (|levels| < depth ==>
                  forall e :: e in read ==> exists i :: 0 <= i < |levels| && levels[i].price == e.price)
  {
    var levels, read := DepthOf(b, k, depth), Read(b, k, depth);
    ReadIsOrdered(rows, b, n, k, depth);
    OrderedPrices(k.side, read);
    if |levels| < depth {
      forall e | e in read ensures exists i :: 0 <= i < |levels| && levels[i].price == e.price {
        UncutPrices(read, depth, e);
      }
    }
  }

  lemma UncutPrices(read: seq<Entry>, depth: nat, e: Entry)
    requires e in read && |Levels(read, depth)| < depth
    ensures exists i :: 0 <= i < |Levels(read, depth)| && Levels(read, depth)[i].price == e.price
  {
    PricesMeaning(read);
    var x :| 0 <= x < |read| && read[x] == e;
    assert e.price in Prices(read);
    var i :| 0 <= i < |Prices(read)| && Prices(read)[i] == e.price;
    assert Levels(read, depth)[i].price == e.price;
  }

  /** When neither window cuts the side, a level shows the same quantity as getLevelTotalQuantity for its price. */
  lemma LevelsAreTotals(b: Book, k: ZKey, depth: nat, i: nat)
    requires i < |DepthOf(b, k, depth)|
    requires |ZSet(b, k)| <= 501 && (depth == 0 || |ZSet(b, k)| <= depth * 2)
    ensures DepthOf(b, k, depth)[i].amount == LevelTotal(b, k.pair, k.side, DepthOf(b, k, depth)[i].price)
  {
    var z, price := ZSet(b, k), DepthOf(b, k, depth)[i].price;
    assert Window(b, k, depth) == if k.side == BUY then Reverse(z) else z;
    assert ZRange(z, LEVEL_WINDOW - 1, false) == z;
    assert ZKey(k.pair, k.side) == k;
    SumLookup(b.details, Window(b, k, depth), RemainingAt(price));
    SumLookup(b.details, z, RemainingAt(price));
    SumReverse(z, Weight(b.details, RemainingAt(price)));
  }
}
