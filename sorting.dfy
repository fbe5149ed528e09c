/** Python's `list.sort(key=...)` on tokens (process_invoice.py:137 and 154): a stable sort in
    place. The model sorts an array by insertion; `SortedBy` is its specification, and the
    lemmas show that it is ordered, a permutation, stable, and the only sequence with those
    three properties, so it is what any stable sort (Python's included) returns. */
module Sorting {
  import opened Tokens

  /** Inserts `x` behind every element whose key is not greater than its own. */
  function InsertBy(s: seq<Token>, x: Token, key: Token -> int): (r: seq<Token>)
    ensures |r| == |s| + 1
    decreases |s|
  {
    if s == [] || key(s[|s| - 1]) <= key(x) then s + [x]
    else
      var init := s[..|s| - 1];
      assert s == init + [s[|s| - 1]];
      InsertBy(init, x, key) + [s[|s| - 1]]
  }

  /** The stable sort of `s` by `key`: each element inserted in turn, in input order. */
  function SortedBy(s: seq<Token>, key: Token -> int): (r: seq<Token>)
    ensures |r| == |s|
    decreases |s|
  {
    if s == [] then []
    else
      assert s == s[..|s| - 1] + [s[|s| - 1]];
      InsertBy(SortedBy(s[..|s| - 1], key), s[|s| - 1], key)
  }

  lemma {:induction false} InsertByPermutes(s: seq<Token>, x: Token, key: Token -> int)
    ensures multiset(InsertBy(s, x, key)) == multiset(s) + multiset{x}
    decreases |s|
  {
    if s != [] && key(s[|s| - 1]) > key(x) {
      var init, last := s[..|s| - 1], s[|s| - 1];
      assert s == init + [last];
      InsertByPermutes(init, x, key);
    }
  }

  /** `SortedBy` returns a permutation of its input. */
  lemma {:induction false} SortedByPermutes(s: seq<Token>, key: Token -> int)
    ensures multiset(SortedBy(s, key)) == multiset(s)
    decreases |s|
  {
    if s != [] {
      var init, last := s[..|s| - 1], s[|s| - 1];
      assert s == init + [last];
      SortedByPermutes(init, key);
      InsertByPermutes(SortedBy(init, key), last, key);
    }
  }

  predicate Ordered(s: seq<Token>, key: Token -> int) {
    forall i, j :: 0 <= i < j < |s| ==> key(s[i]) <= key(s[j])
  }

  /** The elements of `s` whose key is `k`, in their order in `s`. */
  function WithKey(s: seq<Token>, key: Token -> int, k: int): (r: seq<Token>)
    ensures forall e :: e in r ==> e in s && key(e) == k
    decreases |s|
  {
    if s == [] then []
    else WithKey(s[..|s| - 1], key, k) + (if key(s[|s| - 1]) == k then [s[|s| - 1]] else [])
  }

  lemma WithKeyAppend(s: seq<Token>, x: Token, key: Token -> int, k: int)
    ensures WithKey(s + [x], key, k) == WithKey(s, key, k) + (if key(x) == k then [x] else [])
  {
    assert (s + [x])[..|s|] == s;
  }

  lemma {:induction false} WithKeyHas(s: seq<Token>, key: Token -> int, y: Token)
    requires y in s
    ensures y in WithKey(s, key, key(y))
    decreases |s|
  {
    if s[|s| - 1] != y {
      assert s == s[..|s| - 1] + [s[|s| - 1]];
      WithKeyHas(s[..|s| - 1], key, y);
    }
  }

  lemma {:induction false} InsertByOrdered(s: seq<Token>, x: Token, key: Token -> int)
    requires Ordered(s, key)
    ensures Ordered(InsertBy(s, x, key), key)
    decreases |s|
  {
    if s != [] && key(s[|s| - 1]) > key(x) {
      var init, last := s[..|s| - 1], s[|s| - 1];
      assert s == init + [last];
      InsertByOrdered(init, x, key);
      InsertByBounded(init, x, key, key(last));
      OrderedAppend(InsertBy(init, x, key), last, key);
    }
  }

  /** A bound on every key of `s` and on `x`'s bounds every key after the insertion. */
  lemma InsertByBounded(s: seq<Token>, x: Token, key: Token -> int, b: int)
    requires forall i :: 0 <= i < |s| ==> key(s[i]) <= b
    requires key(x) <= b
    ensures forall e :: e in InsertBy(s, x, key) ==> key(e) <= b
  {
    InsertByPermutes(s, x, key);
    forall e | e in InsertBy(s, x, key) ensures key(e) <= b {
      assert e in multiset(InsertBy(s, x, key));
      if e != x {
        assert e in multiset(s);
        var i :| 0 <= i < |s| && s[i] == e;
      }
    }
  }

  lemma OrderedAppend(r: seq<Token>, last: Token, key: Token -> int)
    requires Ordered(r, key)
    requires forall e :: e in r ==> key(e) <= key(last)
    ensures Ordered(r + [last], key)
  {
    var q := r + [last];
    forall i, j | 0 <= i < j < |q| ensures key(q[i]) <= key(q[j]) {
      if j == |r| {
        assert q[i] == r[i];
      } else {
        assert q[i] == r[i] && q[j] == r[j];
      }
    }
  }

  /** `SortedBy` returns its input ordered by `key`. */
  lemma {:induction false} SortedByOrdered(s: seq<Token>, key: Token -> int)
    ensures Ordered(SortedBy(s, key), key)
    decreases |s|
  {
    if s != [] {
      SortedByOrdered(s[..|s| - 1], key);
      InsertByOrdered(SortedBy(s[..|s| - 1], key), s[|s| - 1], key);
    }
  }

  lemma {:induction false} InsertByWithKey(s: seq<Token>, x: Token, key: Token -> int, k: int)
    ensures WithKey(InsertBy(s, x, key), key, k) == WithKey(s, key, k) + (if key(x) == k then [x] else [])
    decreases |s|
  {
    if s == [] || key(s[|s| - 1]) <= key(x) {
      WithKeyAppend(s, x, key, k);
    } else {
      var init, last := s[..|s| - 1], s[|s| - 1];
      assert s == init + [last];
      assert InsertBy(s, x, key) == InsertBy(init, x, key) + [last];
      InsertByWithKey(init, x, key, k);
      WithKeyAppend(InsertBy(init, x, key), last, key, k);
      WithKeyAppend(init, last, key, k);
      var w := WithKey(init, key, k);
      if key(x) == k {
        assert key(last) != k;
        assert WithKey(InsertBy(s, x, key), key, k) == w + [x];
        assert WithKey(s, key, k) == w;
      } else if key(last) == k {
        assert WithKey(InsertBy(s, x, key), key, k) == w + [last];
        assert WithKey(s, key, k) == w + [last];
      } else {
        assert WithKey(InsertBy(s, x, key), key, k) == w;
      }
    }
  }

  /** `SortedBy` is stable: the elements sharing a key keep their input order. */
  lemma {:induction false} SortedByStable(s: seq<Token>, key: Token -> int, k: int)
    ensures WithKey(SortedBy(s, key), key, k) == WithKey(s, key, k)
    decreases |s|
  {
    if s != [] {
      var init, last := s[..|s| - 1], s[|s| - 1];
      assert s == init + [last];
      SortedByStable(init, key, k);
      InsertByWithKey(SortedBy(init, key), last, key, k);
      WithKeyAppend(init, last, key, k);
    }
  }

  lemma LastIsGreatest(r: seq<Token>, key: Token -> int, y: Token)
    requires Ordered(r, key) && y in r
    ensures key(y) <= key(r[|r| - 1])
  {
    var p :| 0 <= p < |r| && r[p] == y;
    if p < |r| - 1 {
      assert key(r[p]) <= key(r[|r| - 1]);
    }
  }

  lemma OrderedPrefix(r: seq<Token>, key: Token -> int)
    requires Ordered(r, key) && r != []
    ensures Ordered(r[..|r| - 1], key)
  {
  }

  /** Equal last keys, once equal on every key: the largest key of one is present in the other. */
  lemma SameLastKey(r1: seq<Token>, r2: seq<Token>, key: Token -> int)
    requires r1 != [] && r2 != []
    requires Ordered(r1, key) && Ordered(r2, key)
    requires forall k :: WithKey(r1, key, k) == WithKey(r2, key, k)
    ensures key(r1[|r1| - 1]) == key(r2[|r2| - 1])
  {
    var x1, x2 := r1[|r1| - 1], r2[|r2| - 1];
    WithKeyHas(r2, key, x2);
    assert WithKey(r1, key, key(x2)) == WithKey(r2, key, key(x2));
    var y1 :| y1 in WithKey(r1, key, key(x2));
    LastIsGreatest(r1, key, y1);
    WithKeyHas(r1, key, x1);
    assert WithKey(r1, key, key(x1)) == WithKey(r2, key, key(x1));
    var y2 :| y2 in WithKey(r2, key, key(x1));
    LastIsGreatest(r2, key, y2);
  }

  /** Equal per-key elements of `i1 + [x1]` and `i2 + [x2]`, with `x1` and `x2` sharing a key,
      give equal per-key elements of `i1` and `i2` for the key `k`. */
  lemma DropLastAt(i1: seq<Token>, x1: Token, i2: seq<Token>, x2: Token, key: Token -> int, k: int)
    requires key(x1) == key(x2)
    requires WithKey(i1 + [x1], key, k) == WithKey(i2 + [x2], key, k)
    ensures WithKey(i1, key, k) == WithKey(i2, key, k)
  {
    WithKeyAppend(i1, x1, key, k);
    WithKeyAppend(i2, x2, key, k);
    var w1, w2 := WithKey(i1, key, k), WithKey(i2, key, k);
    if key(x1) == k {
      assert (w1 + [x1])[..|w1|] == w1 && (w2 + [x2])[..|w2|] == w2;
    } else {
      assert w1 + [] == w1 && w2 + [] == w2;
    }
  }

  /** ... and equal last elements. */
  lemma SameLast(i1: seq<Token>, x1: Token, i2: seq<Token>, x2: Token, key: Token -> int)
    requires key(x1) == key(x2)
    requires WithKey(i1 + [x1], key, key(x1)) == WithKey(i2 + [x2], key, key(x1))
    ensures x1 == x2
  {
    var k := key(x1);
    WithKeyAppend(i1, x1, key, k);
    WithKeyAppend(i2, x2, key, k);
    var w1, w2 := WithKey(i1, key, k), WithKey(i2, key, k);
    assert (w1 + [x1])[|w1|] == x1 && (w2 + [x2])[|w2|] == x2;
  }

  /** With the same last key, equal per-key elements force equal last elements and equal
      per-key elements of what precedes them. */
  lemma DropLast(i1: seq<Token>, x1: Token, i2: seq<Token>, x2: Token, key: Token -> int)
    requires key(x1) == key(x2)
    requires forall k :: WithKey(i1 + [x1], key, k) == WithKey(i2 + [x2], key, k)
    ensures x1 == x2
    ensures forall k :: WithKey(i1, key, k) == WithKey(i2, key, k)
  {
    forall k ensures WithKey(i1, key, k) == WithKey(i2, key, k) {
      DropLastAt(i1, x1, i2, x2, key, k);
    }
    SameLast(i1, x1, i2, x2, key);
  }

  /** Two ordered sequences that agree on the elements of every key are equal. */
  lemma {:induction false} StableOrderUnique(r1: seq<Token>, r2: seq<Token>, key: Token -> int)
    requires Ordered(r1, key) && Ordered(r2, key)
    requires forall k :: WithKey(r1, key, k) == WithKey(r2, key, k)
    ensures r1 == r2
    decreases |r1| + |r2|
  {
    if r1 == [] && r2 != [] {
      WithKeyHas(r2, key, r2[0]);
      assert false;
    } else if r1 != [] && r2 == [] {
      WithKeyHas(r1, key, r1[0]);
      assert false;
    } else if r1 != [] {
      var i1, x1 := r1[..|r1| - 1], r1[|r1| - 1];
      var i2, x2 := r2[..|r2| - 1], r2[|r2| - 1];
      assert r1 == i1 + [x1] && r2 == i2 + [x2];
      SameLastKey(r1, r2, key);
      DropLast(i1, x1, i2, x2, key);
      OrderedPrefix(r1, key);
      OrderedPrefix(r2, key);
      StableOrderUnique(i1, i2, key);
    }
  }

  /** Any ordered rearrangement that keeps equal keys in input order is `SortedBy`. */
  lemma StableSortIsSortedBy(s: seq<Token>, r: seq<Token>, key: Token -> int)
    requires Ordered(r, key)
    requires forall k :: WithKey(r, key, k) == WithKey(s, key, k)
    ensures r == SortedBy(s, key)
  {
    SortedByOrdered(s, key);
    forall k ensures WithKey(r, key, k) == WithKey(SortedBy(s, key), key, k) {
      SortedByStable(s, key, k);
    }
    StableOrderUnique(r, SortedBy(s, key), key);
  }

  /** No two elements of `s` share a key. */
  predicate DistinctKeys(s: seq<Token>, key: Token -> int) {
    forall i, j :: 0 <= i < j < |s| ==> key(s[i]) != key(s[j])
  }

  /** No element has the key exactly when none is picked out. */
  lemma {:induction false} WithKeyEmptyIff(s: seq<Token>, key: Token -> int, k: int)
    ensures WithKey(s, key, k) == [] <==> forall i :: 0 <= i < |s| ==> key(s[i]) != k
    decreases |s|
  {
    if s != [] {
      var n := |s| - 1;
      var init := s[..n];
      WithKeyEmptyIff(init, key, k);
      assert WithKey(s, key, k) == WithKey(init, key, k) + (if key(s[n]) == k then [s[n]] else []);
      assert forall i :: 0 <= i < n ==> init[i] == s[i];
    }
  }

  /** With distinct keys, each key picks out at most one element. */
  lemma {:induction false} WithKeyAtMostOne(s: seq<Token>, key: Token -> int, k: int)
    requires DistinctKeys(s, key)
    ensures |WithKey(s, key, k)| <= 1
    decreases |s|
  {
    if s != [] {
      var n := |s| - 1;
      var init := s[..n];
      assert forall i :: 0 <= i < n ==> init[i] == s[i];
      WithKeyAtMostOne(init, key, k);
      if key(s[n]) == k {
        WithKeyEmptyIff(init, key, k);
      }
    }
  }

  /** Rearranging elements whose keys are all distinct does not change the sorted result. */
  lemma DistinctKeysSortOrderFree(s1: seq<Token>, s2: seq<Token>, key: Token -> int)
    requires multiset(s1) == multiset(s2)
    requires DistinctKeys(s1, key) && DistinctKeys(s2, key)
    ensures SortedBy(s1, key) == SortedBy(s2, key)
  {
    var r1, r2 := SortedBy(s1, key), SortedBy(s2, key);
    SortedByOrdered(s1, key);
    SortedByOrdered(s2, key);
    forall k ensures WithKey(r1, key, k) == WithKey(r2, key, k) {
      SortedByStable(s1, key, k);
      SortedByStable(s2, key, k);
      DistinctWithKey(s1, s2, key, k);
    }
    StableOrderUnique(r1, r2, key);
  }

  lemma DistinctWithKey(s1: seq<Token>, s2: seq<Token>, key: Token -> int, k: int)
    requires multiset(s1) == multiset(s2)
    requires DistinctKeys(s1, key) && DistinctKeys(s2, key)
    ensures WithKey(s1, key, k) == WithKey(s2, key, k)
  {
    WithKeyAtMostOne(s1, key, k);
    WithKeyAtMostOne(s2, key, k);
    var w1, w2 := WithKey(s1, key, k), WithKey(s2, key, k);
    if w1 != [] {
      var x := w1[0];
      assert x in w1;
      SameElements(s1, s2, x);
      WithKeyHas(s2, key, x);
      OnlyElement(w1, x);
      OnlyElement(w2, x);
    } else if w2 != [] {
      var x := w2[0];
      assert x in w2;
      SameElements(s2, s1, x);
      WithKeyHas(s1, key, x);
      assert false;
    }
  }

  lemma OnlyElement(w: seq<Token>, x: Token)
    requires |w| <= 1 && x in w
    ensures w == [x]
  {
  }

  lemma SameElements(s1: seq<Token>, s2: seq<Token>, x: Token)
    requires multiset(s1) == multiset(s2) && x in s1
    ensures x in s2
  {
    assert x in multiset(s1);
  }

  /** Elements that all share one key are left in their order. */
  lemma SortedBySameKey(s: seq<Token>, key: Token -> int)
    requires forall i :: 0 <= i < |s| ==> key(s[i]) == key(s[0])
    ensures SortedBy(s, key) == s
  {
    StableSortIsSortedBy(s, s, key);
  }

  /** Where the insertion loop stops, `InsertBy` puts the element too. */
  lemma {:induction false} InsertByAt(s: seq<Token>, x: Token, key: Token -> int, j: nat)
    requires j <= |s|
    requires j == 0 || key(s[j - 1]) <= key(x)
    requires forall m :: j <= m < |s| ==> key(s[m]) > key(x)
    ensures InsertBy(s, x, key) == s[..j] + [x] + s[j..]
    decreases |s|
  {
    if j == |s| {
      assert s[..j] == s && s[j..] == [];
    } else {
      var init, last := s[..|s| - 1], s[|s| - 1];
      assert key(last) > key(x);
      assert InsertBy(s, x, key) == InsertBy(init, x, key) + [last];
      assert j == 0 || init[j - 1] == s[j - 1];
      assert forall m :: j <= m < |init| ==> key(init[m]) > key(x);
      InsertByAt(init, x, key, j);
      assert init[..j] == s[..j] && init[j..] + [last] == s[j..];
      calc {
        InsertBy(s, x, key);
        InsertBy(init, x, key) + [last];
        init[..j] + [x] + init[j..] + [last];
        s[..j] + [x] + (init[j..] + [last]);
      }
    }
  }

  /** Moves `a[i]` down past the elements before it whose key is greater, shifting them up. */
  method InsertInPlace(a: array<Token>, i: nat, key: Token -> int)
    requires i < a.Length
    modifies a
    ensures a[..i + 1] == InsertBy(old(a[..i]), old(a[i]), key)
    ensures a[i + 1..] == old(a[i + 1..])
  {
    ghost var sorted := a[..i];
    var x := a[i];
    var j := i;
    while j > 0 && key(a[j - 1]) > key(x)
      invariant 0 <= j <= i
      invariant forall k :: 0 <= k < j ==> a[k] == sorted[k]
      invariant forall k :: j < k <= i ==> a[k] == sorted[k - 1]
      invariant a[i + 1..] == old(a[i + 1..])
      invariant forall m :: j <= m < i ==> key(sorted[m]) > key(x)
    {
      a[j] := a[j - 1];
      j := j - 1;
    }
    a[j] := x;
    ShiftedIsInserted(a[..], sorted, x, key, j);
  }

  /** The array contents after the shifting loop: the elements before `j` unchanged, `x` at
      `j`, and the rest of the sorted prefix shifted up by one. */
  lemma ShiftedIsInserted(after: seq<Token>, sorted: seq<Token>, x: Token, key: Token -> int, j: nat)
    requires j <= |sorted| < |after|
    requires forall k :: 0 <= k < j ==> after[k] == sorted[k]
    requires after[j] == x
    requires forall k :: j < k <= |sorted| ==> after[k] == sorted[k - 1]
    requires j == 0 || key(sorted[j - 1]) <= key(x)
    requires forall m :: j <= m < |sorted| ==> key(sorted[m]) > key(x)
    ensures after[..|sorted| + 1] == InsertBy(sorted, x, key)
  {
    InsertByAt(sorted, x, key, j);
    var inserted := sorted[..j] + [x] + sorted[j..];
    assert forall k :: 0 <= k <= |sorted| ==> after[k] == inserted[k];
  }

  /** Insertion sort of `a` in place by `key`. */
  method SortInPlace(a: array<Token>, key: Token -> int)
    modifies a
    ensures a[..] == SortedBy(old(a[..]), key)
  {
    ghost var orig := a[..];
    var i := 0;
    while i < a.Length
      invariant 0 <= i <= a.Length
      invariant a[..i] == SortedBy(orig[..i], key)
      invariant a[i..] == orig[i..]
    {
      InsertInPlace(a, i, key);
      assert orig[..i + 1] == orig[..i] + [orig[i]];
      i := i + 1;
    }
    assert a[..] == a[..a.Length] && orig[..a.Length] == orig;
  }
}
