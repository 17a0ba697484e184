/** Sums of an integer weight over a table, and how they react to one row being added or changed. */
module Sums {

  function Sum<T>(s: seq<T>, f: T -> int): int
  {
    if s == [] then 0 else Sum(s[..|s| - 1], f) + f(s[|s| - 1])
  }

  lemma SumAppend<T>(s: seq<T>, x: T, f: T -> int)
    ensures Sum(s + [x], f) == Sum(s, f) + f(x)
  {
    assert (s + [x])[..|s|] == s;
  }

  lemma {:induction false} SumConcat<T>(s: seq<T>, t: seq<T>, f: T -> int)
    ensures Sum(s + t, f) == Sum(s, f) + Sum(t, f)
  {
    if t == [] {
      assert s + t == s;
    } else {
      var init := t[..|t| - 1];
      SumConcat(s, init, f);
      assert (s + t)[..|s + t| - 1] == s + init;
    }
  }

  lemma {:induction false} SumUpdate<T>(s: seq<T>, i: nat, x: T, f: T -> int)
    requires i < |s|
    ensures Sum(s[i := x], f) == Sum(s, f) - f(s[i]) + f(x)
  {
    var init := s[..|s| - 1];
    if i == |s| - 1 {
      assert s[i := x][..|s| - 1] == init;
    } else {
      SumUpdate(init, i, x, f);
      assert s[i := x][..|s| - 1] == init[i := x];
    }
  }

  lemma {:induction false} SumBounds<T>(s: seq<T>, f: T -> int, g: T -> int)
    requires forall i :: 0 <= i < |s| ==> f(s[i]) <= g(s[i])
    ensures Sum(s, f) <= Sum(s, g)
  {
    if s != [] {
      var init := s[..|s| - 1];
      forall i | 0 <= i < |init| ensures f(init[i]) <= g(init[i]) {
        assert init[i] == s[i];
      }
      SumBounds(init, f, g);
    }
  }

  lemma {:induction false} SumNonNegative<T>(s: seq<T>, f: T -> int)
    requires forall i :: 0 <= i < |s| ==> 0 <= f(s[i])
    ensures 0 <= Sum(s, f)
  {
    if s != [] {
      var init := s[..|s| - 1];
      forall i | 0 <= i < |init| ensures 0 <= f(init[i]) {
        assert init[i] == s[i];
      }
      SumNonNegative(init, f);
    }
  }

  lemma {:induction false} SumZero<T>(s: seq<T>, f: T -> int)
    requires forall i :: 0 <= i < |s| ==> f(s[i]) == 0
    ensures Sum(s, f) == 0
  {
    if s != [] {
      var init := s[..|s| - 1];
      forall i | 0 <= i < |init| ensures f(init[i]) == 0 {
        assert init[i] == s[i];
      }
      SumZero(init, f);
    }
  }

  lemma {:induction false} SumDifference<T>(s: seq<T>, f: T -> int, g: T -> int, d: T -> int)
    requires forall i :: 0 <= i < |s| ==> d(s[i]) == f(s[i]) - g(s[i])
    ensures Sum(s, d) == Sum(s, f) - Sum(s, g)
  {
    if s != [] {
      var init := s[..|s| - 1];
      assert forall i :: 0 <= i < |init| ==> init[i] == s[i];
      SumDifference(init, f, g, d);
    }
  }

  lemma {:induction false} SameSum<T>(s: seq<T>, f: T -> int, g: T -> int)
    requires forall i :: 0 <= i < |s| ==> f(s[i]) == g(s[i])
    ensures Sum(s, f) == Sum(s, g)
  {
    SumBounds(s, f, g);
    SumBounds(s, g, f);
  }

  /** A table whose rows weigh no less than before, and that only gained rows of no negative weight. */
  lemma {:induction false} SumGrows<T>(s: seq<T>, t: seq<T>, f: T -> int)
    requires |s| <= |t| && forall i :: 0 <= i < |s| ==> f(s[i]) <= f(t[i])
    requires forall i :: |s| <= i < |t| ==> 0 <= f(t[i])
    ensures Sum(s, f) <= Sum(t, f)
  {
    if t != [] {
      var init := t[..|t| - 1];
      if |s| == |t| {
        SumGrows(s[..|s| - 1], init, f);
      } else {
        SumGrows(s, init, f);
      }
    }
  }

  lemma {:induction false} SumRemoveAt<T>(s: seq<T>, i: nat, f: T -> int)
    requires i < |s|
    ensures Sum(s, f) == Sum(s[..i] + s[i + 1..], f) + f(s[i])
  {
    hide Sum;
    var before, after := s[..i], s[i + 1..];
    assert s == before + [s[i]] + after;
    SumConcat(before + [s[i]], after, f);
    SumAppend(before, s[i], f);
    SumConcat(before, after, f);
  }

  lemma MultisetRemoveAt<T>(s: seq<T>, i: nat)
    requires i < |s|
    ensures multiset(s[..i] + s[i + 1..]) == multiset(s) - multiset{s[i]}
  {
    assert s == s[..i] + [s[i]] + s[i + 1..];
  }

  /** A sum does not depend on the order of the rows. */
  lemma {:induction false} SumPermutation<T>(s: seq<T>, t: seq<T>, f: T -> int)
    requires multiset(s) == multiset(t)
    ensures Sum(s, f) == Sum(t, f)
  {
    if s == [] {
      assert |multiset(t)| == 0;
    } else {
      var n := |s| - 1;
      assert s[n] in multiset(t);
      var i :| 0 <= i < |t| && t[i] == s[n];
      MultisetRemoveAt(s, n);
      MultisetRemoveAt(t, i);
      assert s[..n] + s[n + 1..] == s[..n];
      SumPermutation(s[..n], t[..i] + t[i + 1..], f);
      SumRemoveAt(t, i, f);
    }
  }

  /** The sum over the rows whose index was marked. */
  function SumMarked<T>(s: seq<T>, marked: set<nat>, f: T -> int): int
  {
    if s == [] then 0
    else SumMarked(s[..|s| - 1], marked, f) + (if |s| - 1 in marked then f(s[|s| - 1]) else 0)
  }

  lemma {:induction false} SumMarkedAdd<T>(s: seq<T>, marked: set<nat>, i: nat, f: T -> int)
    requires i !in marked
    ensures SumMarked(s, marked + {i}, f) == SumMarked(s, marked, f) + (if i < |s| then f(s[i]) else 0)
  {
    if s != [] {
      SumMarkedAdd(s[..|s| - 1], marked, i, f);
    }
  }

  /** New rows that nothing has marked leave the marked sum alone. */
  lemma {:induction false} SumMarkedConcat<T>(s: seq<T>, t: seq<T>, marked: set<nat>, f: T -> int)
    requires forall i :: i in marked ==> i < |s|
    ensures SumMarked(s + t, marked, f) == SumMarked(s, marked, f)
  {
    if t == [] {
      assert s + t == s;
    } else {
      var init := t[..|t| - 1];
      SumMarkedConcat(s, init, marked, f);
      assert (s + t)[..|s + t| - 1] == s + init;
    }
  }

  lemma {:induction false} SumMarkedBounds<T>(s: seq<T>, marked: set<nat>, f: T -> int)
    requires forall i :: 0 <= i < |s| ==> 0 <= f(s[i])
    ensures 0 <= SumMarked(s, marked, f) <= Sum(s, f)
  {
    if s != [] {
      var init := s[..|s| - 1];
      forall i | 0 <= i < |init| ensures 0 <= f(init[i]) {
        assert init[i] == s[i];
      }
      SumMarkedBounds(init, marked, f);
    }
  }

  /** More rows, and more of them marked. */
  lemma {:induction false} SumMarkedGrows<T>(s: seq<T>, t: seq<T>, marked: set<nat>, more: set<nat>, f: T -> int)
    requires s <= t && marked <= more && forall i :: 0 <= i < |t| ==> 0 <= f(t[i])
    ensures SumMarked(s, marked, f) <= SumMarked(t, more, f)
  {
    if t != [] {
      var init := t[..|t| - 1];
      assert forall i :: 0 <= i < |init| ==> init[i] == t[i];
      if |s| == |t| {
        assert s == t;
        SumMarkedGrows(s[..|s| - 1], init, marked, more, f);
      } else {
        SumMarkedGrows(s, init, marked, more, f);
      }
    }
  }

  /** The rows outside one set of marks are those inside its complement. */
  lemma {:induction false} SumMarkedRest<T>(s: seq<T>, marked: set<nat>, rest: set<nat>, f: T -> int)
    requires forall i: nat :: i < |s| ==> (i in rest <==> i !in marked)
    ensures Sum(s, f) == SumMarked(s, marked, f) + SumMarked(s, rest, f)
  {
    if s != [] {
      SumMarkedRest(s[..|s| - 1], marked, rest, f);
    }
  }

  lemma {:induction false} SumMarkedAll<T>(s: seq<T>, marked: set<nat>, f: T -> int)
    requires forall i: nat :: i < |s| ==> i in marked
    ensures SumMarked(s, marked, f) == Sum(s, f)
  {
    if s != [] {
      SumMarkedAll(s[..|s| - 1], marked, f);
    }
  }

  /** The sum over a finite set of keys. */
  ghost function SumSet<K>(s: set<K>, f: K -> int): int
  {
    if s == {} then 0 else var x :| x in s; f(x) + SumSet(s - {x}, f)
  }

  lemma {:induction false} SumSetRemove<K>(s: set<K>, x: K, f: K -> int)
    requires x in s
    ensures SumSet(s, f) == f(x) + SumSet(s - {x}, f)
    decreases |s|
  {
    var y :| y in s && SumSet(s, f) == f(y) + SumSet(s - {y}, f);
    if y != x {
      SumSetRemove(s - {y}, x, f);
      SumSetRemove(s - {x}, y, f);
      assert s - {y} - {x} == s - {x} - {y};
    }
  }

  /** Two weights that differ by d at one key and agree elsewhere have sums that differ by d. */
  lemma {:induction false} SumSetShift<K>(s: set<K>, x: K, d: int, f: K -> int, g: K -> int)
    requires forall y :: y in s ==> g(y) == f(y) + (if y == x then d else 0)
    ensures SumSet(s, g) == SumSet(s, f) + (if x in s then d else 0)
    decreases |s|
  {
    if s != {} {
      var y :| y in s && SumSet(s, f) == f(y) + SumSet(s - {y}, f);
      SumSetShift(s - {y}, x, d, f, g);
      SumSetRemove(s, y, g);
    }
  }
}
