/** Byte-wise string order and the in-place insertion sort that fixes the order of due events and pending records. */
module Sorting {

  /** The order of Go's string comparison: first differing character, then length. */
  predicate Below(a: string, b: string) {
    b != [] && (a == [] || a[0] < b[0] || (a[0] == b[0] && Below(a[1..], b[1..])))
  }

  lemma {:induction false} BelowIsStrict(a: string, b: string)
    ensures !(Below(a, b) && Below(b, a))
    ensures Below(a, b) || Below(b, a) || a == b
    ensures !Below(a, a)
  {
    if a != [] {
      BelowIsStrict(a[1..], a[1..]);
    }
    if a != [] && b != [] && a[0] == b[0] {
      BelowIsStrict(a[1..], b[1..]);
      assert a == [a[0]] + a[1..] && b == [b[0]] + b[1..];
    }
  }

  lemma {:induction false} BelowTransitive(a: string, b: string, c: string)
    requires !Below(b, a) && !Below(c, b)
    ensures !Below(c, a)
  {
    if a != [] && b != [] && c != [] && a[0] == b[0] == c[0] {
      BelowTransitive(a[1..], b[1..], c[1..]);
    }
  }

  /** A common prefix does not change the order. */
  lemma {:induction false} BelowPrefix(p: string, a: string, b: string)
    ensures Below(p + a, p + b) <==> Below(a, b)
  {
    if p == [] {
      assert p + a == a && p + b == b;
    } else {
      BelowPrefix(p[1..], a, b);
      assert (p + a)[1..] == p[1..] + a && (p + b)[1..] == p[1..] + b;
    }
  }

  ghost predicate Sorted(s: seq<string>) {
    forall i, j | 0 <= i < j < |s| :: !Below(s[j], s[i])
  }

  /** Sorted except that the element at j may be too small for its place. */
  ghost predicate SortedBut(s: seq<string>, n: nat, j: nat)
    requires j < n <= |s|
  {
    && (forall p, q | 0 <= p < q < n && q != j :: !Below(s[q], s[p]))
  }

  lemma SwapPermutes(s: seq<string>, j: nat)
    requires 0 < j < |s|
    ensures multiset(s[j := s[j - 1]][j - 1 := s[j]]) == multiset(s)
  {
  }

  /** Sinking the element at j one place keeps everything else in order. */
  lemma SwapSinks(s: seq<string>, n: nat, j: nat)
    requires 0 < j < n <= |s| && SortedBut(s, n, j) && Below(s[j], s[j - 1])
    ensures SortedBut(s[j := s[j - 1]][j - 1 := s[j]], n, j - 1)
  {
    var t := s[j := s[j - 1]][j - 1 := s[j]];
    BelowIsStrict(s[j], s[j - 1]);
    forall p, q | 0 <= p < q < n && q != j - 1 ensures !Below(t[q], t[p]) {
      if q == j && p < j - 1 {
        assert !Below(s[j - 1], s[p]);
      }
    }
  }

  lemma SettledIsSorted(s: seq<string>, n: nat, j: nat)
    requires j < n <= |s| && SortedBut(s, n, j) && (j == 0 || !Below(s[j], s[j - 1]))
    ensures Sorted(s[..n])
  {
    forall p, q | 0 <= p < q < n ensures !Below(s[q], s[p]) {
      if q == j && p < j - 1 {
        assert !Below(s[j - 1], s[p]);
        BelowTransitive(s[p], s[j - 1], s[j]);
      }
    }
  }

  lemma SortedNext(s: seq<string>, i: nat)
    requires i < |s| && Sorted(s[..i])
    ensures SortedBut(s, i + 1, i)
  {
    forall p, q | 0 <= p < q < i ensures !Below(s[q], s[p]) {
      assert s[..i][q] == s[q] && s[..i][p] == s[p];
    }
  }

  /** Sinks the element at i into the sorted elements before it. */
  method Sink(values: array<string>, i: nat)
    requires i < values.Length && Sorted(values[..][..i])
    modifies values
    ensures Sorted(values[..][..i + 1]) && multiset(values[..]) == multiset(old(values[..]))
  {
    hide Below, Sorted, SortedBut;
    var j := i;
    SortedNext(values[..], i);
    while j > 0 && Below(values[j], values[j - 1])
      invariant 0 <= j <= i
      invariant SortedBut(values[..], i + 1, j)
      invariant multiset(values[..]) == multiset(old(values[..]))
    {
      ghost var before := values[..];
      SwapPermutes(before, j);
      SwapSinks(before, i + 1, j);
      values[j], values[j - 1] := values[j - 1], values[j];
      assert values[..] == before[j := before[j - 1]][j - 1 := before[j]];
      j := j - 1;
    }
    SettledIsSorted(values[..], i + 1, j);
  }

  method SortStrings(values: array<string>)
    modifies values
    ensures Sorted(values[..]) && multiset(values[..]) == multiset(old(values[..]))
  {
    hide Below;
    if values.Length == 0 {
      return;
    }
    for i := 1 to values.Length
      invariant Sorted(values[..][..i]) && multiset(values[..]) == multiset(old(values[..]))
    {
      Sink(values, i);
    }
    assert values[..][..values.Length] == values[..];
  }

  lemma LastIsLargest(s: seq<string>, x: string)
    requires Sorted(s) && x in multiset(s)
    ensures |s| > 0 && !Below(s[|s| - 1], x)
  {
    hide Below;
    var i :| 0 <= i < |s| && s[i] == x;
    BelowIsStrict(x, x);
  }

  lemma WithoutLast(s: seq<string>)
    requires |s| > 0 && Sorted(s)
    ensures multiset(s) == multiset(s[..|s| - 1]) + multiset{s[|s| - 1]} && Sorted(s[..|s| - 1])
  {
    hide Below;
    assert s == s[..|s| - 1] + [s[|s| - 1]];
  }

  /** The last elements of two sorted listings of the same multiset agree. */
  lemma SameLast(s: seq<string>, t: seq<string>)
    requires Sorted(s) && Sorted(t) && multiset(s) == multiset(t) && |s| > 0
    ensures |s| == |t| && s[|s| - 1] == t[|t| - 1]
  {
    hide Below, Sorted;
    assert |s| == |multiset(s)| == |multiset(t)| == |t|;
    LastIsLargest(t, s[|s| - 1]);
    LastIsLargest(s, t[|t| - 1]);
    BelowIsStrict(s[|s| - 1], t[|t| - 1]);
  }

  lemma CancelLast(front: seq<string>, front': seq<string>, last: string)
    requires multiset(front) + multiset{last} == multiset(front') + multiset{last}
    ensures multiset(front) == multiset(front')
  {
    var m, m' := multiset(front) + multiset{last}, multiset(front') + multiset{last};
    assert m - multiset{last} == multiset(front) && m' - multiset{last} == multiset(front');
  }

  /** Equal multisets have equal sorted listings, so the order in which a map is visited leaves no trace. */
  lemma {:induction false} SortedUnique(s: seq<string>, t: seq<string>)
    requires Sorted(s) && Sorted(t) && multiset(s) == multiset(t)
    ensures s == t
  {
    hide Below, Sorted;
    if s == [] {
      assert |multiset(t)| == 0;
    } else {
      SameLast(s, t);
      var front, front', last := s[..|s| - 1], t[..|t| - 1], s[|s| - 1];
      WithoutLast(s);
      WithoutLast(t);
      CancelLast(front, front', last);
      SortedUnique(front, front');
      assert s == front + [last] && t == front' + [last];
    }
  }

  /** A list that names every element of a set exactly once. */
  ghost predicate Enumerates<T>(list: seq<T>, all: set<T>) {
    multiset(list) == multiset(all)
  }

  lemma EnumeratesExactly<T>(list: seq<T>, all: set<T>)
    requires Enumerates(list, all)
    ensures forall x :: x in list <==> x in all
    ensures forall i, j | 0 <= i < j < |list| :: list[i] != list[j]
  {
    forall x ensures x in list <==> x in all {
      assert x in list <==> x in multiset(list);
      assert x in all <==> x in multiset(all);
    }
    forall i, j | 0 <= i < j < |list| ensures list[i] != list[j] {
      var x := list[i];
      assert list == list[..j] + [list[j]] + list[j + 1..];
      assert x in list[..j];
      assert multiset(list[..j])[x] >= 1;
      assert multiset(list)[x] == multiset(list[..j])[x] + multiset([list[j]])[x] + multiset(list[j + 1..])[x];
      assert multiset(all)[x] <= 1;
    }
  }

  lemma EnumeratesMore<T>(list: seq<T>, all: set<T>, x: T)
    requires Enumerates(list, all) && x !in all
    ensures Enumerates(list + [x], all + {x})
  {
    assert multiset(list + [x]) == multiset(list) + multiset{x};
  }

  /** Strictly increasing in the string order. */
  ghost predicate Increasing(s: seq<string>) {
    forall i, j | 0 <= i < j < |s| :: Below(s[i], s[j])
  }

  /** The elements of a set of strings in increasing order: the one listing that visiting order cannot change. */
  method SortedListing(list: seq<string>, ghost all: set<string>) returns (sorted: seq<string>)
    requires Enumerates(list, all)
    ensures Enumerates(sorted, all) && Increasing(sorted)
  {
    var values := new string[|list|](i requires 0 <= i < |list| => list[i]);
    assert values[..] == list;
    SortStrings(values);
    sorted := values[..];
    EnumeratesExactly(sorted, all);
    forall i, j | 0 <= i < j < |sorted| ensures Below(sorted[i], sorted[j]) {
      BelowIsStrict(sorted[i], sorted[j]);
    }
  }

  lemma IncreasingUnique(s: seq<string>, t: seq<string>, all: set<string>)
    requires Enumerates(s, all) && Enumerates(t, all) && Increasing(s) && Increasing(t)
    ensures s == t
  {
    forall i, j | 0 <= i < j < |s| ensures !Below(s[j], s[i]) {
      BelowIsStrict(s[i], s[j]);
    }
    forall i, j | 0 <= i < j < |t| ensures !Below(t[j], t[i]) {
      BelowIsStrict(t[i], t[j]);
    }
    SortedUnique(s, t);
  }
}
