/** What sorting and merging mean, on values. */
module Sorting {

  ghost predicate Sorted(s: seq<int>) {
    forall i, j :: 0 <= i < j < |s| ==> s[i] <= s[j]
  }

  /** The sorted arrangement of s: it exists (`Sortable`) and there is only one (`SortedUnique`). */
  ghost function SortOf(s: seq<int>): (r: seq<int>)
    ensures |r| == |s|
  {
    Sortable(s);
    var r :| Sorted(r) && multiset(r) == multiset(s);
    assert |multiset(r)| == |r| && |multiset(s)| == |s|;
    r
  }

  lemma {:induction false} Sortable(s: seq<int>)
    ensures exists r :: Sorted(r) && multiset(r) == multiset(s)
  {
    if s == [] {
      assert Sorted(s);
    } else {
      var x, rest := s[0], s[1..];
      assert s == [x] + rest;
      Sortable(rest);
      var t :| Sorted(t) && multiset(t) == multiset(rest);
      InsertSorts(x, t);
    }
  }

  lemma {:induction false} InsertSorts(x: int, s: seq<int>)
    requires Sorted(s)
    ensures exists r :: Sorted(r) && multiset(r) == multiset(s) + multiset{x}
  {
    hide Sorted;
    if s == [] || x <= s[0] {
      SortedBelow(x, s);
      SortedCons(x, s);
      assert multiset([x] + s) == multiset(s) + multiset{x};
    } else {
      SortedTail(s);
      InsertSorts(x, s[1..]);
      var t :| Sorted(t) && multiset(t) == multiset(s[1..]) + multiset{x};
      forall v | v in t ensures s[0] <= v {
        assert v in multiset(t);
        assert v in s[1..] || v == x;
      }
      SortedCons(s[0], t);
      assert multiset([s[0]] + t) == multiset(s) + multiset{x};
    }
  }

  function Merge(s: seq<int>, t: seq<int>): (r: seq<int>)
    ensures |r| == |s| + |t|
  {
    if s == [] then t
    else if t == [] then s
    else if s[0] < t[0] then [s[0]] + Merge(s[1..], t)
    else [t[0]] + Merge(s, t[1..])
  }

  /** s with the cells from `at` on overwritten by t. */
  function Splice<T>(s: seq<T>, at: int, t: seq<T>): (r: seq<T>)
    requires 0 <= at && at + |t| <= |s|
    ensures |r| == |s|
  {
    seq(|s|, i requires 0 <= i < |s| => if at <= i < at + |t| then t[i - at] else s[i])
  }

  /** x is below every element of s. */
  ghost predicate Below(x: int, s: seq<int>) {
    forall v :: v in s ==> x <= v
  }

  ghost predicate Above(x: int, s: seq<int>) {
    forall v :: v in s ==> v <= x
  }

  lemma SortedCons(x: int, s: seq<int>)
    requires Sorted(s) && Below(x, s)
    ensures Sorted([x] + s)
  {
    forall i, j | 0 <= i < j < |[x] + s| ensures ([x] + s)[i] <= ([x] + s)[j] {
      assert s[j - 1] in s;
      assert i == 0 || ([x] + s)[i] == s[i - 1];
    }
  }

  lemma SortedTail(s: seq<int>)
    requires Sorted(s) && s != []
    ensures Sorted(s[1..]) && Below(s[0], s[1..]) && multiset(s) == multiset{s[0]} + multiset(s[1..])
  {
    assert s == [s[0]] + s[1..];
  }

  /** SortOf is sorted and has the same elements. */
  lemma SortOfSorts(s: seq<int>)
    ensures Sorted(SortOf(s)) && multiset(SortOf(s)) == multiset(s)
  {
    Sortable(s);
  }

  lemma SameLeast(s: seq<int>, t: seq<int>)
    requires s != [] && t != [] && Below(s[0], s[1..]) && t[0] in multiset(s)
    ensures s[0] <= t[0]
  {
    var k :| 0 <= k < |s| && s[k] == t[0];
    if k > 0 {
      assert s[1..][k - 1] == t[0];
      assert t[0] in s[1..];
    }
  }

  lemma Cancel(a: int, b: multiset<int>, c: multiset<int>)
    requires multiset{a} + b == multiset{a} + c
    ensures b == c
  {
    assert b == (multiset{a} + b) - multiset{a};
    assert c == (multiset{a} + c) - multiset{a};
  }

  /** There is only one sorted arrangement of given elements. */
  lemma {:induction false} SortedUnique(s: seq<int>, t: seq<int>)
    requires Sorted(s) && Sorted(t) && multiset(s) == multiset(t)
    ensures s == t
  {
    assert |multiset(s)| == |s| && |multiset(t)| == |t|;
    if s != [] {
      SortedTail(s);
      SortedTail(t);
      SameLeast(s, t);
      SameLeast(t, s);
      Cancel(s[0], multiset(s[1..]), multiset(t[1..]));
      SortedUnique(s[1..], t[1..]);
      assert s == [s[0]] + s[1..] && t == [t[0]] + t[1..];
    }
  }

  /** A sorted sequence with the elements of s is SortOf(s). */
  lemma SortedIsSortOf(s: seq<int>, t: seq<int>)
    requires Sorted(t) && multiset(s) == multiset(t)
    ensures t == SortOf(s)
  {
    SortOfSorts(s);
    SortedUnique(t, SortOf(s));
  }

  lemma {:induction false} MergeElements(s: seq<int>, t: seq<int>)
    ensures multiset(Merge(s, t)) == multiset(s) + multiset(t)
  {
    if s != [] && t != [] {
      if s[0] < t[0] {
        MergeElements(s[1..], t);
        assert Merge(s, t) == [s[0]] + Merge(s[1..], t);
        FirstElement(s);
      } else {
        MergeElements(s, t[1..]);
        assert Merge(s, t) == [t[0]] + Merge(s, t[1..]);
        FirstElement(t);
      }
    }
  }

  lemma FirstElement(s: seq<int>)
    requires s != []
    ensures multiset(s) == multiset{s[0]} + multiset(s[1..])
  {
    assert s == [s[0]] + s[1..];
  }

  lemma MergeBelow(x: int, s: seq<int>, t: seq<int>)
    requires Below(x, s) && Below(x, t)
    ensures Below(x, Merge(s, t))
  {
    MergeElements(s, t);
    forall v | v in Merge(s, t) ensures x <= v {
      assert v in multiset(Merge(s, t));
      assert v in multiset(s) + multiset(t);
      assert v in s || v in t;
    }
  }

  lemma SortedBelow(x: int, s: seq<int>)
    requires Sorted(s) && (s == [] || x <= s[0])
    ensures Below(x, s)
  {
  }

  lemma {:induction false} MergeSorts(s: seq<int>, t: seq<int>)
    requires Sorted(s) && Sorted(t)
    ensures Sorted(Merge(s, t))
  {
    if s != [] && t != [] {
      if s[0] < t[0] {
        SortedTail(s);
        SortedBelow(s[0], t);
        MergeBelow(s[0], s[1..], t);
        MergeSorts(s[1..], t);
        SortedCons(s[0], Merge(s[1..], t));
      } else {
        SortedTail(t);
        SortedBelow(t[0], s);
        MergeBelow(t[0], s, t[1..]);
        MergeSorts(s, t[1..]);
        SortedCons(t[0], Merge(s, t[1..]));
      }
    }
  }

  /** Merging two sorted sequences sorts them together. */
  lemma MergeIsSortOf(s: seq<int>, t: seq<int>)
    requires Sorted(s) && Sorted(t)
    ensures Merge(s, t) == SortOf(s + t)
  {
    MergeSorts(s, t);
    MergeElements(s, t);
    SortedIsSortOf(s + t, Merge(s, t));
  }

  /** Sorting depends on the elements alone. */
  lemma SortOfSameElements(s: seq<int>, t: seq<int>)
    requires multiset(s) == multiset(t)
    ensures SortOf(s) == SortOf(t)
  {
    SortOfSorts(s);
    SortedIsSortOf(t, SortOf(s));
  }

  lemma SortedConcat(s: seq<int>, x: int, t: seq<int>)
    requires Sorted(s) && Sorted(t) && Above(x, s) && Below(x, t)
    ensures Sorted(s + t)
  {
    forall i, j | 0 <= i < j < |s + t| ensures (s + t)[i] <= (s + t)[j] {
      if i < |s| <= j {
        assert s[i] in s && t[j - |s|] in t;
      }
    }
  }

  lemma SortOfBounded(s: seq<int>, x: int)
    ensures Above(x, s) ==> Above(x, SortOf(s))
    ensures Below(x, s) ==> Below(x, SortOf(s))
  {
    SortOfSorts(s);
    forall v | v in SortOf(s) ensures v in s {
      assert v in multiset(SortOf(s));
    }
  }

  lemma SortedAround(l: seq<int>, x: int, u: seq<int>)
    requires Sorted(l) && Sorted(u) && Above(x, l) && Below(x, u)
    ensures Sorted(l + [x] + u)
  {
    SortedCons(x, u);
    assert Below(x, [x] + u);
    SortedConcat(l, x, [x] + u);
    assert l + [x] + u == l + ([x] + u);
  }

  /** Sorting around a pivot: smaller elements, the pivot, larger elements. */
  lemma SortAround(lower: seq<int>, x: int, upper: seq<int>, all: seq<int>)
    requires multiset(all) == multiset(lower) + multiset{x} + multiset(upper)
    requires Above(x, lower) && Below(x, upper)
    ensures SortOf(all) == SortOf(lower) + [x] + SortOf(upper)
  {
    SortOfBounded(lower, x);
    SortOfBounded(upper, x);
    SortOfSorts(lower);
    SortOfSorts(upper);
    SortedAround(SortOf(lower), x, SortOf(upper));
    Rearranged(lower, x, upper, SortOf(lower), SortOf(upper), all);
    SortedIsSortOf(all, SortOf(lower) + [x] + SortOf(upper));
  }

  lemma Rearranged(lower: seq<int>, x: int, upper: seq<int>, l: seq<int>, u: seq<int>, all: seq<int>)
    requires multiset(all) == multiset(lower) + multiset{x} + multiset(upper)
    requires multiset(l) == multiset(lower) && multiset(u) == multiset(upper)
    ensures multiset(all) == multiset(l + [x] + u)
  {
  }
}
