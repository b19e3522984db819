/**
 cilksort.cpp: sequential quicksort and merge, the parallel merge that splits by binary search, and
 the four-way sort that goes back and forth between two buffers.  Pointers are an array and an index;
 ranges [low, high] are inclusive and may be empty.  A spawned call runs where it is spawned; that
 every other schedule gives the same result is in `sort_tasks.dfy`.
 */
module CilkSort {
  import opened Sorting

  function Med3(a: int, b: int, c: int): (m: int)
    ensures m in {a, b, c}
    // a median: it is not strictly above two of its arguments, nor strictly below two
    ensures !(a < m && c < m) && !(a < m && b < m) && !(b < m && c < m)
    ensures !(a > m && c > m) && !(a > m && b > m) && !(b > m && c > m)
  {
    if a < b then
      if b < c then b else if a < c then c else a
    else
      if b > c then b else if a > c then c else a
  }

  /** t is s with the cells of [lo, hi) permuted among themselves. */
  ghost predicate Shuffled(s: seq<int>, t: seq<int>, lo: int, hi: int) {
    && |s| == |t|
    && multiset(s) == multiset(t)
    && forall i :: 0 <= i < |s| && !(lo <= i < hi) ==> s[i] == t[i]
  }

  lemma ShuffledSegment(s: seq<int>, t: seq<int>, lo: int, hi: int)
    requires Shuffled(s, t, lo, hi) && 0 <= lo <= hi <= |s|
    ensures multiset(s[lo..hi]) == multiset(t[lo..hi])
    ensures s[..lo] == t[..lo] && s[hi..] == t[hi..]
  {
    InThree(s, lo, hi);
    InThree(t, lo, hi);
    assert s[..lo] == t[..lo] && s[hi..] == t[hi..];
    CancelAround(multiset(s[..lo]), multiset(s[lo..hi]), multiset(t[lo..hi]), multiset(s[hi..]));
  }

  lemma InThree(s: seq<int>, lo: int, hi: int)
    requires 0 <= lo <= hi <= |s|
    ensures multiset(s) == multiset(s[..lo]) + multiset(s[lo..hi]) + multiset(s[hi..])
  {
    assert s == s[..lo] + s[lo..hi] + s[hi..];
  }

  lemma CancelAround(a: multiset<int>, b: multiset<int>, c: multiset<int>, d: multiset<int>)
    requires a + b + d == a + c + d
    ensures b == c
  {
    assert b == (a + b + d) - a - d;
    assert c == (a + c + d) - a - d;
  }

  /** What held of every value in the segment still does. */
  lemma ShuffledFrom(s: seq<int>, t: seq<int>, lo: int, hi: int, i: int)
    requires Shuffled(s, t, lo, hi) && 0 <= lo <= i < hi <= |s|
    ensures exists j :: lo <= j < hi && t[i] == s[j]
  {
    ShuffledSegment(s, t, lo, hi);
    assert t[lo..hi][i - lo] in multiset(t[lo..hi]);
    assert t[i] in s[lo..hi];
  }

  lemma ShuffledSelf(s: seq<int>, lo: int, hi: int)
    ensures Shuffled(s, s, lo, hi)
  {
  }

  lemma ShuffledTwice(s: seq<int>, t: seq<int>, u: seq<int>, lo: int, hi: int)
    requires Shuffled(s, t, lo, hi) && Shuffled(t, u, lo, hi)
    ensures Shuffled(s, u, lo, hi)
  {
  }

  /** The exchange inside seqpart's loop: the two cells just read are written back crosswise. */
  method Exchange(a: array<int>, i: int, j: int, ghost lo: int, ghost hi: int)
    requires 0 <= lo <= i < j < hi <= a.Length
    modifies a
    ensures a[i] == old(a[j]) && a[j] == old(a[i])
    ensures forall k :: 0 <= k < a.Length && k != i && k != j ==> a[k] == old(a[k])
    ensures Shuffled(old(a[..]), a[..], lo, hi)
  {
    var h, l := a[j], a[i];
    a[j] := l;
    a[i] := h;
    assert a[..] == old(a[..])[j := l][i := h];
  }

  /** seqpart's downward scan: the first cell from `from` down that is not above the pivot. */
  method ScanDown(a: array<int>, from: int, pivot: int, ghost stop: int) returns (k: int)
    requires 0 <= stop <= from < a.Length && a[stop] <= pivot
    ensures stop <= k <= from && a[k] <= pivot
    ensures forall i :: k < i <= from ==> pivot < a[i]
  {
    k := from;
    while a[k] > pivot
      invariant stop <= k <= from
      invariant forall i :: k < i <= from ==> pivot < a[i]
      decreases k
    {
      k := k - 1;
    }
  }

  /** seqpart's upward scan: the first cell from `from` up that is not below the pivot. */
  method ScanUp(a: array<int>, from: int, pivot: int, ghost stop: int) returns (k: int)
    requires 0 <= from <= stop < a.Length && pivot <= a[stop]
    ensures from <= k <= stop && pivot <= a[k]
    ensures forall i :: from <= i < k ==> a[i] < pivot
  {
    k := from;
    while a[k] < pivot
      invariant from <= k <= stop
      invariant forall i :: from <= i < k ==> a[i] < pivot
      decreases stop - k
    {
      k := k + 1;
    }
  }

  /** seqpart's invariant: cells left of i are not above the pivot, cells right of j are not below it; d stops the scan down
      and u stops the scan up. */
  predicate Parting(s: seq<int>, low: int, high: int, i: int, j: int, pivot: int, d: int, u: int) {
    && 0 <= low <= high < |s| && low <= i <= j + 1 && j <= high
    && low <= d <= j && s[d] <= pivot && i <= u <= high && pivot <= s[u]
    && (forall x :: low <= x < i ==> s[x] <= pivot) && (forall x :: j < x <= high ==> pivot <= s[x])
  }

  lemma Exchanged(s: seq<int>, low: int, high: int, i: int, j: int, pivot: int, u: int)
    requires Parting(s, low, high, i, j, pivot, j, u) && i < j && pivot <= s[i]
    ensures Parting(s[j := s[i]][i := s[j]], low, high, i + 1, j - 1, pivot, i, j)
  {
  }

  /** Where the scans meet is a proper cut. */
  lemma Cut(s: seq<int>, low: int, high: int, i: int, j: int, pivot: int, u: int)
    requires Parting(s, low, high, i, j, pivot, j, u) && j <= i && pivot <= s[i]
    ensures var p := if j < high then j else j - 1;
      && (low < high ==> low <= p < high)
      && (forall x :: low <= x <= p ==> s[x] <= pivot) && (forall x :: p < x <= high ==> pivot <= s[x])
  {
  }

  /** Both scans, on a segment that the loop has exchanged cells of, or not. */
  method Scans(a: array<int>, low: int, high: int, from: int, to: int, pivot: int, ghost d: int, ghost u: int) returns (i: int, j: int)
    requires Parting(a[..], low, high, from, to, pivot, d, u)
    ensures Parting(a[..], low, high, i, j, pivot, j, u) && pivot <= a[i]
    ensures from <= i && j <= to
    ensures forall x :: j < x <= to ==> pivot < a[x]
    ensures forall x :: from <= x < i ==> a[x] < pivot
  {
    ghost var s := a[..];
    assert s[d] == a[d] && s[u] == a[u];
    j := ScanDown(a, to, pivot, d);
    i := ScanUp(a, from, pivot, u);
    assert s[i] == a[i] && s[j] == a[j];
    // the scans cross by no more than one cell
    assert j + 1 <= high ==> s[j + 1] == a[j + 1] && pivot <= s[j + 1];
  }

  /** The exchange, and one step further with both pointers. */
  method ExchangeThese(a: array<int>, low: int, high: int, i: int, j: int, ghost pivot: int, ghost u: int)
    requires Parting(a[..], low, high, i, j, pivot, j, u) && 0 <= low <= i < j <= high < a.Length && pivot <= a[..][i]
    modifies a
    ensures Parting(a[..], low, high, i + 1, j - 1, pivot, i, j) && Shuffled(old(a[..]), a[..], low, high + 1)
  {
    hide Shuffled, Parting;
    ghost var s := a[..];
    Exchanged(s, low, high, i, j, pivot, u);
    Exchange(a, i, j, low, high + 1);
    assert a[..] == s[j := s[i]][i := s[j]];
  }

  /** Hoare partition around a median of three. */
  method SeqPart(a: array<int>, low: int, high: int) returns (p: int, ghost pivot: int, ghost fallback: bool)
    requires 0 <= low <= high < a.Length
    modifies a
    ensures Shuffled(old(a[..]), a[..], low, high + 1)
    // the second branch of the final test is taken for a single element only
    ensures fallback <==> low == high
    ensures if low == high then p == low - 1 else low <= p < high
    ensures forall i :: low <= i <= p ==> a[i] <= pivot
    ensures forall i :: p < i <= high ==> pivot <= a[i]
  {
    hide Shuffled, Med3, Parting;
    var mid := low + (high - low) / 2;
    var piv := Med3(a[low], a[high], a[mid]);
    pivot := piv;
    var currLow, currHigh := low, high;
    // a cell that stops the downward scan, and one that stops the upward scan
    ghost var stopDown := if a[low] == piv then low else if a[mid] == piv then mid else high;
    ghost var stopUp := stopDown;
    ghost var first := true;
    ShuffledSelf(a[..], low, high + 1);
    assert Parting(a[..], low, high, low, high, piv, stopDown, stopUp) by { Starting(a[..], low, high, piv, stopDown); }
    while true
      invariant Parting(a[..], low, high, currLow, currHigh, piv, stopDown, stopUp)
      invariant Shuffled(old(a[..]), a[..], low, high + 1)
      invariant if first then currLow == low && currHigh == high && piv == Med3(a[low], a[high], a[mid])
                else low < currLow && currHigh < high
      decreases currHigh - currLow + 2
    {
      currLow, currHigh := Scans(a, low, high, currLow, currHigh, piv, stopDown, stopUp);
      if currLow >= currHigh {
        break;
      }
      ghost var before := a[..];
      InSegment(before, low, high, currLow, currHigh, piv, stopUp);
      ExchangeThese(a, low, high, currLow, currHigh, piv, stopUp);
      ShuffledTwice(old(a[..]), before, a[..], low, high + 1);
      stopDown, stopUp := currLow, currHigh;
      currHigh := currHigh - 1;
      currLow := currLow + 1;
      first := false;
    }
    InSegment(a[..], low, high, currLow, currHigh, piv, stopUp);
    Cut(a[..], low, high, currLow, currHigh, piv, stopUp);
    if currHigh < high {
      return currHigh, piv, false;
    } else {
      return currHigh - 1, piv, true;
    }
  }

  lemma Starting(s: seq<int>, low: int, high: int, pivot: int, d: int)
    requires 0 <= low <= d <= high < |s| && s[d] == pivot
    ensures Parting(s, low, high, low, high, pivot, d, d)
  {
  }

  lemma InSegment(s: seq<int>, low: int, high: int, i: int, j: int, pivot: int, u: int)
    requires Parting(s, low, high, i, j, pivot, j, u)
    ensures 0 <= low <= i <= j + 1 && low <= j <= high < |s| && i <= u <= high
  {
  }

  /** The cells of [lo, hi) are in order. */
  ghost predicate InOrder(s: seq<int>, lo: int, hi: int) {
    0 <= lo && hi <= |s| && forall i, j :: lo <= i < j < hi ==> s[i] <= s[j]
  }

  method InsertionSort(a: array<int>, low: int, high: int)
    requires 0 <= low <= high + 1 <= a.Length
    modifies a
    ensures Shuffled(old(a[..]), a[..], low, high + 1)
    ensures InOrder(a[..], low, high + 1)
  {
    var q := low + 1;
    while q <= high
      invariant low < q && (q <= high + 1 || low == high + 1)
      invariant Shuffled(old(a[..]), a[..], low, high + 1)
      invariant low <= high ==> InOrder(a[..], low, q)
    {
      ghost var before := a[..];
      InsertNext(a, low, q);
      ShuffledTwice(old(a[..]), before, a[..], low, high + 1);
      q := q + 1;
    }
  }

  /** Moving cell q down to k and the cells between up by one permutes them. */
  lemma RotationShuffles(s: seq<int>, t: seq<int>, k: int, q: int, lo: int)
    requires 0 <= lo <= k <= q < |s| == |t|
    requires forall i :: 0 <= i < |s| && !(k <= i <= q) ==> t[i] == s[i]
    requires t[k] == s[q] && forall i :: k < i <= q ==> t[i] == s[i - 1]
    ensures Shuffled(s, t, lo, q + 1)
  {
    var a, b, c, d := s[..k], s[k..q], [s[q]], s[q + 1..];
    assert s == a + b + c + d;
    assert t == a + c + b + d;
    SwapMiddle(a, b, c, d);
  }

  lemma SwapMiddle(a: seq<int>, b: seq<int>, c: seq<int>, d: seq<int>)
    ensures multiset(a + b + c + d) == multiset(a + c + b + d)
  {
  }

  lemma RotationSorts(s: seq<int>, t: seq<int>, k: int, q: int, lo: int)
    requires 0 <= lo <= k <= q < |s| == |t|
    requires forall i :: 0 <= i < |s| && !(k <= i <= q) ==> t[i] == s[i]
    requires t[k] == s[q] && forall i :: k < i <= q ==> t[i] == s[i - 1]
    requires InOrder(s, lo, q)
    requires (k == lo || s[k - 1] <= s[q]) && (k == q || s[q] <= s[k])
    ensures InOrder(t, lo, q + 1)
  {
    forall i, j | lo <= i < j <= q ensures t[i] <= t[j] {
      var i', j' := if i > k then i - 1 else i, if j > k then j - 1 else j;
      assert i != k ==> t[i] == s[i'];
      assert j != k ==> t[j] == s[j'];
    }
  }

  /** The inner loop of insertion_sort: move a[q] down to its place among the sorted cells below it. */
  method InsertNext(a: array<int>, low: int, q: int)
    requires 0 <= low < q < a.Length && InOrder(a[..], low, q)
    modifies a
    ensures Shuffled(old(a[..]), a[..], low, q + 1)
    ensures InOrder(a[..], low, q + 1)
  {
    hide Shuffled, InOrder;
    ghost var s := a[..];
    var x := a[q];
    var p := q - 1;
    while p >= low && a[p] > x
      invariant low - 1 <= p < q
      invariant forall i :: 0 <= i < a.Length && (i <= p || i > q) ==> a[i] == s[i]
      invariant forall i :: p + 1 < i <= q ==> a[i] == s[i - 1]
      invariant p + 1 < q ==> s[p + 1] > x
    {
      a[p + 1] := a[p];
      p := p - 1;
    }
    a[p + 1] := x;
    RotationShuffles(s, a[..], p + 1, q, low);
    RotationSorts(s, a[..], p + 1, q, low);
  }

  /** Permuting the upper cells among themselves leaves them above the lower ones. */
  lemma UpperStaysAbove(s: seq<int>, t: seq<int>, low0: int, low: int, high: int)
    requires 0 <= low0 <= low <= high + 1 <= |s| && Shuffled(s, t, low, high + 1)
    requires forall i, j :: low0 <= i < low <= j <= high ==> s[i] <= s[j]
    ensures forall i, j :: low0 <= i < low <= j <= high ==> t[i] <= t[j]
  {
    forall i, j | low0 <= i < low <= j <= high ensures t[i] <= t[j] {
      ShuffledFrom(s, t, low, high + 1, j);
    }
  }

  /** After partitioning [low, high] at p and sorting [low, p], everything up to p is in place. */
  lemma LowerPartDone(s0: seq<int>, s1: seq<int>, s2: seq<int>, low0: int, low: int, p: int, high: int, pivot: int)
    requires 0 <= low0 <= low <= p < high < |s0|
    requires Shuffled(s0, s1, low, high + 1) && Shuffled(s1, s2, low, p + 1)
    requires forall i, j :: low0 <= i < j < low ==> s0[i] <= s0[j]
    requires forall i, j :: low0 <= i < low <= j <= high ==> s0[i] <= s0[j]
    requires forall i, j :: low <= i < j <= p ==> s2[i] <= s2[j]
    requires forall i :: low <= i <= p ==> s1[i] <= pivot
    requires forall i :: p < i <= high ==> pivot <= s1[i]
    ensures Shuffled(s0, s2, low, high + 1)
    ensures forall i, j :: low0 <= i < j <= p ==> s2[i] <= s2[j]
    ensures forall i, j :: low0 <= i <= p < j <= high ==> s2[i] <= s2[j]
  {
    ShuffledTwice(s0, s1, s2, low, high + 1);
    UpperStaysAbove(s0, s2, low0, low, high);
    forall i, j | low0 <= i <= p < j <= high ensures s2[i] <= s2[j] {
      if low <= i {
        ShuffledFrom(s1, s2, low, p + 1, i);
      }
    }
  }

  /** Tail-recursive quicksort; `insertionSize` is the size from which it partitions. */
  method SeqQuick(a: array<int>, low0: int, high: int, insertionSize: nat)
    requires 0 <= low0 <= high + 1 <= a.Length
    requires 1 <= insertionSize
    modifies a
    ensures Shuffled(old(a[..]), a[..], low0, high + 1)
    ensures InOrder(a[..], low0, high + 1)
    decreases high - low0 + 1
  {
    var low := low0;
    while high - low >= insertionSize
      invariant low0 <= low <= high + 1
      invariant Shuffled(old(a[..]), a[..], low0, high + 1)
      invariant InOrder(a[..], low0, low)
      invariant forall i, j :: low0 <= i < low <= j <= high ==> a[i] <= a[j]
      decreases high - low
    {
      ghost var s0 := a[..];
      var p, pivot, fallback := SeqPart(a, low, high);
      ghost var s1 := a[..];
      SeqQuick(a, low, p, insertionSize);
      LowerPartDone(s0, s1, a[..], low0, low, p, high, pivot);
      low := p + 1;
    }
    ghost var s0 := a[..];
    InsertionSort(a, low, high);
    UpperStaysAbove(s0, a[..], low0, low, high);
  }

  // ---------------------------------------------------------------- merging

  lemma SpliceGrows(s: seq<int>, at: int, t: seq<int>, x: int)
    requires 0 <= at && at + |t| < |s|
    ensures Splice(s, at, t + [x]) == Splice(s, at, t)[at + |t| := x]
  {
  }

  /** memcpy of n cells between different arrays. */
  method Copy(dst: array<int>, d: int, src: array<int>, from: int, n: int)
    requires dst != src && 0 <= n && 0 <= d && d + n <= dst.Length && 0 <= from && from + n <= src.Length
    modifies dst
    ensures dst[..] == Splice(old(dst[..]), d, src[from..from + n])
  {
    hide Splice;
    ghost var was, s := dst[..], src[from..from + n];
    SpliceNothing(was, d);
    for i := 0 to n
      invariant dst[..] == Splice(was, d, s[..i])
    {
      SpliceGrows(was, d, s[..i], s[i]);
      assert s[..i + 1] == s[..i] + [s[i]];
      ghost var now := dst[..];
      dst[d + i] := src[from + i];
      assert dst[..] == now[d + i := s[i]];
    }
    assert s[..n] == s;
  }

  lemma SpliceNothing(s: seq<int>, at: int)
    requires 0 <= at <= |s|
    ensures Splice(s, at, []) == s
  {
  }

  /** What is left to merge, once the cells before `d` hold the smallest elements. */
  ghost predicate Merging(was: seq<int>, now: seq<int>, d0: int, d: int, whole: seq<int>, rest: seq<int>) {
    && 0 <= d0 <= d && d + |rest| == d0 + |whole| <= |was| == |now|
    && now[..d0] == was[..d0] && now[d0 + |whole|..] == was[d0 + |whole|..]
    && now[d0..d] + rest == whole
  }

  lemma MergeStep(was: seq<int>, now: seq<int>, now': seq<int>, d0: int, d: int, whole: seq<int>, rest: seq<int>)
    requires Merging(was, now, d0, d, whole, rest) && rest != []
    requires 0 <= d < |now| && now' == now[d := rest[0]]
    ensures Merging(was, now', d0, d + 1, whole, rest[1..])
  {
    assert now'[d0..d + 1] == now[d0..d] + [rest[0]];
    assert now'[d0..d + 1] + rest[1..] == now[d0..d] + rest;
  }

  lemma MergeStart(was: seq<int>, d0: int, whole: seq<int>)
    requires 0 <= d0 && d0 + |whole| <= |was|
    ensures Merging(was, was, d0, d0, whole, whole)
  {
    assert was[d0..d0] + whole == whole;
  }

  lemma MergeDone(was: seq<int>, now: seq<int>, d0: int, d: int, whole: seq<int>, rest: seq<int>)
    requires Merging(was, now, d0, d, whole, rest)
    ensures Splice(now, d, rest) == Splice(was, d0, whole)
  {
    assert now[..d] == now[..d0] + now[d0..d];
    assert Splice(now, d, rest) == now[..d0] + (now[d0..d] + rest) + now[d0 + |whole|..];
  }

  /** Merge of src[l1..h1] and src[l2..h2], both inclusive. */
  function MergeFrom(src: seq<int>, l1: int, h1: int, l2: int, h2: int): (r: seq<int>)
    requires 0 <= l1 <= h1 + 1 <= |src| && 0 <= l2 <= h2 + 1 <= |src|
    ensures |r| == h1 - l1 + 1 + h2 - l2 + 1
    decreases h1 - l1 + h2 - l2
  {
    if l1 > h1 then src[l2..h2 + 1]
    else if l2 > h2 then src[l1..h1 + 1]
    else if src[l1] < src[l2] then [src[l1]] + MergeFrom(src, l1 + 1, h1, l2, h2)
    else [src[l2]] + MergeFrom(src, l1, h1, l2 + 1, h2)
  }

  lemma {:induction false} MergeFromIsMerge(src: seq<int>, l1: int, h1: int, l2: int, h2: int)
    requires 0 <= l1 <= h1 + 1 <= |src| && 0 <= l2 <= h2 + 1 <= |src|
    ensures MergeFrom(src, l1, h1, l2, h2) == Merge(src[l1..h1 + 1], src[l2..h2 + 1])
    decreases h1 - l1 + h2 - l2
  {
    var s, t := src[l1..h1 + 1], src[l2..h2 + 1];
    if l1 <= h1 && l2 <= h2 {
      if src[l1] < src[l2] {
        assert s[1..] == src[l1 + 1..h1 + 1];
        MergeFromIsMerge(src, l1 + 1, h1, l2, h2);
      } else {
        assert t[1..] == src[l2 + 1..h2 + 1];
        MergeFromIsMerge(src, l1, h1, l2 + 1, h2);
      }
    }
  }

  lemma MergeFromStep(src: seq<int>, l1: int, h1: int, l2: int, h2: int)
    requires 0 <= l1 <= h1 < |src| && 0 <= l2 <= h2 < |src|
    ensures MergeFrom(src, l1, h1, l2, h2)
         == if src[l1] < src[l2] then [src[l1]] + MergeFrom(src, l1 + 1, h1, l2, h2)
            else [src[l2]] + MergeFrom(src, l1, h1, l2 + 1, h2)
  {
  }

  /** *lowdest++ = x */
  method Emit(dst: array<int>, dest: int, x: int, ghost was: seq<int>, ghost d0: int, ghost whole: seq<int>, ghost rest: seq<int>)
    returns (next: int)
    requires Merging(was, dst[..], d0, dest, whole, [x] + rest)
    modifies dst
    ensures next == dest + 1 && Merging(was, dst[..], d0, next, whole, rest)
  {
    ghost var now := dst[..];
    dst[dest] := x;
    next := dest + 1;
    MergeStep(was, now, dst[..], d0, dest, whole, [x] + rest);
    assert ([x] + rest)[1..] == rest;
  }

  /** The two-speed sequential merge. */
  method SeqMerge(src: array<int>, low1_: int, high1: int, low2_: int, high2: int, dst: array<int>, lowdest: int)
    requires src != dst
    requires 0 <= low1_ <= high1 + 1 <= src.Length && 0 <= low2_ <= high2 + 1 <= src.Length
    requires 0 <= lowdest && lowdest + (high1 - low1_ + 1) + (high2 - low2_ + 1) <= dst.Length
    modifies dst
    ensures dst[..] == Splice(old(dst[..]), lowdest, MergeFrom(src[..], low1_, high1, low2_, high2))
  {
    hide Merging, Splice;
    var low1, low2, dest := low1_, low2_, lowdest;
    ghost var s, was := src[..], dst[..];
    ghost var whole := MergeFrom(s, low1, high1, low2, high2);
    MergeStart(was, lowdest, whole);
    if low1 < high1 && low2 < high2 {
      low1, low2, dest := FastMerge(src, low1, high1, low2, high2, dst, dest, was, whole);
    }
    if low1 <= high1 && low2 <= high2 {
      low1, low2, dest := SlowMerge(src, low1, high1, low2, high2, dst, dest, was, whole, lowdest);
    }
    CopyRest(src, low1, high1, low2, high2, dst, dest, was, whole, lowdest);
  }

  /** What is left of the range that did not run out. */
  method CopyRest(src: array<int>, low1: int, high1: int, low2: int, high2: int, dst: array<int>, dest: int,
                  ghost was: seq<int>, ghost whole: seq<int>, ghost lowdest: int)
    requires src != dst
    requires 0 <= low1 <= high1 + 1 <= src.Length && 0 <= low2 <= high2 + 1 <= src.Length
    requires low1 > high1 || low2 > high2
    requires Merging(was, dst[..], lowdest, dest, whole, MergeFrom(src[..], low1, high1, low2, high2))
    modifies dst
    ensures dst[..] == Splice(was, lowdest, whole)
  {
    MergeDone(was, dst[..], lowdest, dest, whole, MergeFrom(src[..], low1, high1, low2, high2));
    if low1 > high1 {
      assert src[..][low2..high2 + 1] == src[low2..high2 + 1];
      Copy(dst, dest, src, low2, high2 - low2 + 1);
    } else {
      assert src[..][low1..high1 + 1] == src[low1..high1 + 1];
      Copy(dst, dest, src, low1, high1 - low1 + 1);
    }
  }

  /** The fast loop: it loads before it tests, so it stops one cell short of the end of a range. */
  method FastMerge(src: array<int>, low1_: int, high1: int, low2_: int, high2: int, dst: array<int>, lowdest: int,
                   ghost was: seq<int>, ghost whole: seq<int>)
    returns (low1: int, low2: int, dest: int)
    requires src != dst && 0 <= low1_ < high1 < src.Length && 0 <= low2_ < high2 < src.Length
    requires Merging(was, dst[..], lowdest, lowdest, whole, MergeFrom(src[..], low1_, high1, low2_, high2))
    modifies dst
    ensures low1_ <= low1 <= high1 && low2_ <= low2 <= high2
    ensures Merging(was, dst[..], lowdest, dest, whole, MergeFrom(src[..], low1, high1, low2, high2))
  {
    hide Merging, MergeFrom;
    low1, low2, dest := low1_, low2_, lowdest;
    ghost var s := src[..];
    var a1, a2 := src[low1], src[low2];
    while true
      invariant low1_ <= low1 < high1 && low2_ <= low2 < high2 && a1 == s[low1] && a2 == s[low2]
      invariant Merging(was, dst[..], lowdest, dest, whole, MergeFrom(s, low1, high1, low2, high2))
      invariant src[..] == s
      decreases high1 - low1 + high2 - low2
    {
      MergeFromStep(s, low1, high1, low2, high2);
      if a1 < a2 {
        dest := Emit(dst, dest, a1, was, lowdest, whole, MergeFrom(s, low1 + 1, high1, low2, high2));
        low1 := low1 + 1;
        a1 := src[low1];
        if low1 >= high1 {
          break;
        }
      } else {
        dest := Emit(dst, dest, a2, was, lowdest, whole, MergeFrom(s, low1, high1, low2 + 1, high2));
        low2 := low2 + 1;
        a2 := src[low2];
        if low2 >= high2 {
          break;
        }
      }
    }
  }

  /** The slow loop: it tests before it loads, and runs one of the ranges out. */
  method SlowMerge(src: array<int>, low1_: int, high1: int, low2_: int, high2: int, dst: array<int>, dest_: int,
                   ghost was: seq<int>, ghost whole: seq<int>, ghost lowdest: int)
    returns (low1: int, low2: int, dest: int)
    requires src != dst && 0 <= low1_ <= high1 < src.Length && 0 <= low2_ <= high2 < src.Length
    requires Merging(was, dst[..], lowdest, dest_, whole, MergeFrom(src[..], low1_, high1, low2_, high2))
    modifies dst
    ensures low1_ <= low1 <= high1 + 1 && low2_ <= low2 <= high2 + 1
    ensures low1 > high1 || low2 > high2
    ensures Merging(was, dst[..], lowdest, dest, whole, MergeFrom(src[..], low1, high1, low2, high2))
  {
    hide Merging, MergeFrom;
    low1, low2, dest := low1_, low2_, dest_;
    ghost var s := src[..];
    var a1, a2 := src[low1], src[low2];
    while true
      invariant low1_ <= low1 <= high1 && low2_ <= low2 <= high2 && a1 == s[low1] && a2 == s[low2]
      invariant Merging(was, dst[..], lowdest, dest, whole, MergeFrom(s, low1, high1, low2, high2))
      invariant src[..] == s
      decreases high1 - low1 + high2 - low2
    {
      MergeFromStep(s, low1, high1, low2, high2);
      if a1 < a2 {
        dest := Emit(dst, dest, a1, was, lowdest, whole, MergeFrom(s, low1 + 1, high1, low2, high2));
        low1 := low1 + 1;
        if low1 > high1 {
          break;
        }
        a1 := src[low1];
      } else {
        dest := Emit(dst, dest, a2, was, lowdest, whole, MergeFrom(s, low1, high1, low2 + 1, high2));
        low2 := low2 + 1;
        if low2 > high2 {
          break;
        }
        a2 := src[low2];
      }
    }
  }

  // ---------------------------------------------------------------- the parallel merge

  /** binsplit's own comment: the index of the greatest element <= val, or low - 1 if there is none. */
  ghost predicate AsDocumented(s: seq<int>, low: int, high: int, val: int, cut: int)
    requires 0 <= low <= high < |s|
  {
    if cut == low - 1 then forall i :: low <= i <= high ==> val < s[i]
    else low <= cut <= high && s[cut] <= val && forall i :: low <= i <= high && s[i] <= val ==> s[i] <= s[cut]
  }

  /** Cut a sorted range around val.  With duplicates of val the cut is left of them, so the comment's
      wording holds only as far as the last clause says; the partition always holds. */
  method BinSplit(val: int, a: array<int>, low_: int, high_: int) returns (cut: int)
    requires 0 <= low_ <= high_ < a.Length && InOrder(a[..], low_, high_ + 1)
    ensures low_ - 1 <= cut <= high_
    ensures forall i :: low_ <= i <= cut ==> a[i] <= val
    ensures forall i :: cut < i <= high_ ==> val <= a[i]
    ensures AsDocumented(a[..], low_, high_, val, cut) <==> (val <= a[low_] || val !in a[low_..high_ + 1])
  {
    var low, high := low_, high_;
    ghost var s := a[..];
    while low != high
      invariant low_ <= low <= high <= high_
      invariant low == low_ || s[low] < val
      invariant high == high_ || val <= s[high + 1]
      decreases high - low
    {
      var mid := low + (high - low + 1) / 2;
      if val <= a[mid] {
        high := mid - 1;
      } else {
        low := mid;
      }
    }
    cut := if a[low] > val then low - 1 else low;
    CutIsExact(s, low_, high_, val, cut);
    assert a[low_..high_ + 1] == s[low_..high_ + 1];
  }

  lemma CutIsExact(s: seq<int>, low: int, high: int, val: int, cut: int)
    requires 0 <= low <= high < |s| && InOrder(s, low, high + 1)
    requires low - 1 <= cut <= high
    requires if cut == low - 1 then val < s[low] else s[cut] < val || (cut == low && s[low] == val)
    requires cut == high || val <= s[cut + 1]
    ensures forall i :: low <= i <= cut ==> s[i] <= val
    ensures forall i :: cut < i <= high ==> val <= s[i]
    ensures AsDocumented(s, low, high, val, cut) <==> (val <= s[low] || val !in s[low..high + 1])
  {
    if s[low] < val && val in s[low..high + 1] {
      var k :| 0 <= k < |s[low..high + 1]| && s[low..high + 1][k] == val;
      assert s[low + k] == val;
      assert !AsDocumented(s, low, high, val, cut);
    } else if cut >= low {
      forall i | low <= i <= high && s[i] <= val ensures s[i] <= s[cut] {
        assert s[i] == s[low..high + 1][i - low];
      }
    }
  }

  lemma ThreeParts(was: seq<int>, at: int, l: seq<int>, x: int, r: seq<int>)
    requires 0 <= at && at + |l| + 1 + |r| <= |was|
    ensures Splice(Splice(was[at + |l| := x], at, l), at + |l| + 1, r) == Splice(was, at, l + [x] + r)
  {
  }

  lemma SegmentSorted(s: seq<int>, lo: int, hi: int)
    requires InOrder(s, lo, hi) && lo <= hi
    ensures Sorted(s[lo..hi])
  {
  }

  /** What merging the two ranges must give. */
  ghost function Merged(s: seq<int>, low1: int, high1: int, low2: int, high2: int): (r: seq<int>)
    requires 0 <= low1 <= high1 + 1 <= |s| && 0 <= low2 <= high2 + 1 <= |s|
    ensures |r| == high1 - low1 + 1 + high2 - low2 + 1
  {
    SortOf(s[low1..high1 + 1] + s[low2..high2 + 1])
  }

  lemma MergedSwap(s: seq<int>, low1: int, high1: int, low2: int, high2: int)
    requires 0 <= low1 <= high1 + 1 <= |s| && 0 <= low2 <= high2 + 1 <= |s|
    ensures Merged(s, low1, high1, low2, high2) == Merged(s, low2, high2, low1, high1)
  {
    SortOfSameElements(s[low1..high1 + 1] + s[low2..high2 + 1], s[low2..high2 + 1] + s[low1..high1 + 1]);
  }

  lemma MergeFromIsMerged(s: seq<int>, low1: int, high1: int, low2: int, high2: int)
    requires 0 <= low1 <= high1 + 1 <= |s| && 0 <= low2 <= high2 + 1 <= |s|
    requires InOrder(s, low1, high1 + 1) && InOrder(s, low2, high2 + 1)
    ensures MergeFrom(s, low1, high1, low2, high2) == Merged(s, low1, high1, low2, high2)
  {
    MergeFromIsMerge(s, low1, high1, low2, high2);
    SegmentSorted(s, low1, high1 + 1);
    SegmentSorted(s, low2, high2 + 1);
    MergeIsSortOf(s[low1..high1 + 1], s[low2..high2 + 1]);
  }

  /** The halves around the splitting element are below and above it, and together they are everything. */
  lemma SplitMerge(s: seq<int>, low1: int, high1: int, low2: int, high2: int, split1: int, split2: int)
    requires 0 <= low1 <= split1 <= high1 < |s| && 0 <= low2 && low2 - 1 <= split2 <= high2 < |s|
    requires InOrder(s, low1, high1 + 1) && InOrder(s, low2, high2 + 1)
    requires forall i :: low2 <= i <= split2 ==> s[i] <= s[split1]
    requires forall i :: split2 < i <= high2 ==> s[split1] <= s[i]
    ensures Merged(s, low1, high1, low2, high2)
         == Merged(s, low1, split1 - 1, low2, split2) + [s[split1]] + Merged(s, split1 + 1, high1, split2 + 1, high2)
  {
    var x := s[split1];
    var lower, upper := s[low1..split1] + s[low2..split2 + 1], s[split1 + 1..high1 + 1] + s[split2 + 1..high2 + 1];
    assert Above(x, lower) by {
      RangeAbove(s, low1, split1, x);
      RangeAbove(s, low2, split2 + 1, x);
    }
    assert Below(x, upper) by {
      RangeBelow(s, split1 + 1, high1 + 1, x);
      RangeBelow(s, split2 + 1, high2 + 1, x);
    }
    SplitElements(s, low1, high1, low2, high2, split1, split2);
    SortAround(lower, x, upper, s[low1..high1 + 1] + s[low2..high2 + 1]);
  }

  lemma RangeAbove(s: seq<int>, lo: int, hi: int, x: int)
    requires 0 <= lo <= hi <= |s| && forall i :: lo <= i < hi ==> s[i] <= x
    ensures Above(x, s[lo..hi])
  {
  }

  lemma RangeBelow(s: seq<int>, lo: int, hi: int, x: int)
    requires 0 <= lo <= hi <= |s| && forall i :: lo <= i < hi ==> x <= s[i]
    ensures Below(x, s[lo..hi])
  {
  }

  lemma SplitElements(s: seq<int>, low1: int, high1: int, low2: int, high2: int, split1: int, split2: int)
    requires 0 <= low1 <= split1 <= high1 < |s| && 0 <= low2 && low2 - 1 <= split2 <= high2 < |s|
    ensures multiset(s[low1..high1 + 1] + s[low2..high2 + 1])
         == multiset(s[low1..split1] + s[low2..split2 + 1]) + multiset{s[split1]}
            + multiset(s[split1 + 1..high1 + 1] + s[split2 + 1..high2 + 1])
  {
    assert s[low1..high1 + 1] == s[low1..split1] + [s[split1]] + s[split1 + 1..high1 + 1];
    assert s[low2..high2 + 1] == s[low2..split2 + 1] + s[split2 + 1..high2 + 1];
  }

  /** Both recursive merges have something to do whatever the cut, exactly because MERGESIZE >= 2: so the
      branch for two empty ranges, whose memcpy count is off, is never entered. */
  lemma NoEmptyMerge(mergeSize: nat)
    ensures 2 <= mergeSize <==>
      forall n1, n2, cut :: n1 >= n2 > mergeSize && 0 <= cut <= n2 ==> HasWork(n1, n2, cut)
  {
    if mergeSize < 2 {
      assert !HasWork(2, 2, 2);
    }
  }

  /** The sizes of the two recursive merges: n1 / 2 + cut cells and the rest less one. */
  predicate HasWork(n1: int, n2: int, cut: int) {
    n1 / 2 + cut > 0 && (n1 - n1 / 2 - 1) + (n2 - cut) > 0
  }

  /** Merge src[low1..high1] and src[low2..high2] into dst from lowdest on. */
  method CilkMerge(src: array<int>, low1_: int, high1_: int, low2_: int, high2_: int, dst: array<int>, lowdest: int,
                   mergeSize: nat, ghost s: seq<int>)
    requires src != dst && 2 <= mergeSize && s == src[..]
    requires 0 <= low1_ <= high1_ + 1 <= |s| && 0 <= low2_ <= high2_ + 1 <= |s|
    requires InOrder(s, low1_, high1_ + 1) && InOrder(s, low2_, high2_ + 1)
    requires low1_ <= high1_ || low2_ <= high2_
    requires 0 <= lowdest && lowdest + (high1_ - low1_ + 1) + (high2_ - low2_ + 1) <= dst.Length
    modifies dst
    ensures dst[..] == Splice(old(dst[..]), lowdest, Merged(s, low1_, high1_, low2_, high2_))
    decreases high1_ - low1_ + high2_ - low2_, 1
  {
    hide Splice, Merged, MergeFrom, InOrder;
    var low1, high1, low2, high2 := low1_, high1_, low2_, high2_;
    if high2 - low2 > high1 - low1 {
      low1, low2 := low2, low1;
      high1, high2 := high2, high1;
    }
    MergedSwap(s, low1_, high1_, low2_, high2_);
    if high1 < low1 {
      // the larger range is empty: never taken
      assert false;
      return;
    }
    if high2 - low2 < mergeSize {
      SeqMerge(src, low1, high1, low2, high2, dst, lowdest);
      MergeFromIsMerged(s, low1, high1, low2, high2);
      return;
    }
    var split1 := (high1 - low1 + 1) / 2 + low1;
    var split2 := BinSplit(src[split1], src, low2, high2);
    NoEmptyMerge(mergeSize);
    assert HasWork(high1 - low1 + 1, high2 - low2 + 1, split2 - low2 + 1);
    MergeHalves(src, low1, high1, low2, high2, split1, split2, dst, lowdest, mergeSize, s);
  }

  lemma HalvesMakeWhole(s: seq<int>, low1: int, high1: int, low2: int, high2: int, split1: int, split2: int,
                        was: seq<int>, at: int)
    requires 0 <= low1 <= split1 <= high1 < |s| && 0 <= low2 && low2 - 1 <= split2 <= high2 < |s|
    requires InOrder(s, low1, high1 + 1) && InOrder(s, low2, high2 + 1)
    requires forall i :: low2 <= i <= split2 ==> s[i] <= s[split1]
    requires forall i :: split2 < i <= high2 ==> s[split1] <= s[i]
    requires 0 <= at && at + (high1 - low1 + 1) + (high2 - low2 + 1) <= |was|
    ensures var lowsize := split1 - low1 + split2 - low2;
      Splice(Splice(was[at + lowsize + 1 := s[split1]], at, Merged(s, low1, split1 - 1, low2, split2)),
             at + lowsize + 2, Merged(s, split1 + 1, high1, split2 + 1, high2))
      == Splice(was, at, Merged(s, low1, high1, low2, high2))
  {
    SplitMerge(s, low1, high1, low2, high2, split1, split2);
    ThreeParts(was, at, Merged(s, low1, split1 - 1, low2, split2), s[split1],
               Merged(s, split1 + 1, high1, split2 + 1, high2));
  }

  /** The second half of cilkmerge: place the splitting element, merge what is below it and what is above. */
  method MergeHalves(src: array<int>, low1: int, high1: int, low2: int, high2: int, split1: int, split2: int,
                     dst: array<int>, lowdest: int, mergeSize: nat, ghost s: seq<int>)
    requires src != dst && 2 <= mergeSize && s == src[..]
    requires 0 <= low1 <= split1 <= high1 < |s| && 0 <= low2 && low2 - 1 <= split2 <= high2 < |s|
    requires InOrder(s, low1, high1 + 1) && InOrder(s, low2, high2 + 1)
    requires low1 < split1 || low2 <= split2
    requires split1 < high1 || split2 < high2
    requires forall i :: low2 <= i <= split2 ==> s[i] <= s[split1]
    requires forall i :: split2 < i <= high2 ==> s[split1] <= s[i]
    requires 0 <= lowdest && lowdest + (high1 - low1 + 1) + (high2 - low2 + 1) <= dst.Length
    modifies dst
    ensures dst[..] == Splice(old(dst[..]), lowdest, Merged(s, low1, high1, low2, high2))
    decreases high1 - low1 + high2 - low2, 0
  {
    hide Splice, Merged;
    ghost var was := dst[..];
    var lowsize := split1 - low1 + split2 - low2;
    dst[lowdest + lowsize + 1] := src[split1];
    assert dst[..] == was[lowdest + lowsize + 1 := s[split1]];
    CilkMerge(src, low1, split1 - 1, low2, split2, dst, lowdest, mergeSize, s);
    CilkMerge(src, split1 + 1, high1, split2 + 1, high2, dst, lowdest + lowsize + 2, mergeSize, s);
    HalvesMakeWhole(s, low1, high1, low2, high2, split1, split2, was, lowdest);
  }

  // ---------------------------------------------------------------- the four-way sort

  lemma SortedSegment(s: seq<int>, lo: int, hi: int)
    requires 0 <= lo <= hi <= |s| && Sorted(s[lo..hi])
    ensures InOrder(s, lo, hi)
  {
    forall i, j | lo <= i < j < hi ensures s[i] <= s[j] {
      assert s[lo..hi][i - lo] == s[i] && s[lo..hi][j - lo] == s[j];
    }
  }

  /** t agrees with s outside [lo, hi). */
  ghost predicate SameOutside(s: seq<int>, t: seq<int>, lo: int, hi: int) {
    |s| == |t| && forall i :: 0 <= i < |s| && !(lo <= i < hi) ==> s[i] == t[i]
  }

  /** t is s with [lo, hi) sorted. */
  ghost predicate SortedIn(s: seq<int>, t: seq<int>, lo: int, hi: int)
    requires 0 <= lo <= hi <= |s|
  {
    SameOutside(s, t, lo, hi) && t[lo..hi] == SortOf(s[lo..hi])
  }

  lemma SameOutsideTwice(s: seq<int>, t: seq<int>, u: seq<int>, lo: int, hi: int, lo': int, hi': int)
    requires SameOutside(s, t, lo, hi) && SameOutside(t, u, lo', hi') && lo <= lo' <= hi' <= hi
    ensures SameOutside(s, u, lo, hi)
  {
  }

  /** What seqquick leaves behind. */
  lemma QuickSortsIn(s: seq<int>, t: seq<int>, lo: int, hi: int)
    requires 0 <= lo <= hi <= |s| && Shuffled(s, t, lo, hi) && InOrder(t, lo, hi)
    ensures SortedIn(s, t, lo, hi)
  {
    ShuffledSegment(s, t, lo, hi);
    SegmentSorted(t, lo, hi);
    SortedIsSortOf(s[lo..hi], t[lo..hi]);
  }

  /** Sort two adjacent parts, one after the other: each is sorted and the rest is as before. */
  lemma TwoSegments(s0: seq<int>, s1: seq<int>, s2: seq<int>, lo: int, mid: int, hi: int)
    requires 0 <= lo <= mid <= hi <= |s0|
    requires SameOutside(s0, s1, lo, mid) && SameOutside(s1, s2, mid, hi)
    ensures SameOutside(s0, s2, lo, hi)
    ensures s1[mid..hi] == s0[mid..hi] && s2[lo..mid] == s1[lo..mid]
  {
  }

  /** Each of the four parts of s1 is the sorted part of s0. */
  ghost predicate QuartersSorted(s0: seq<int>, s1: seq<int>, lo: int, b: int, c: int, d: int, hi: int)
    requires 0 <= lo <= b <= c <= d <= hi <= |s0|
  {
    && |s1| == |s0| && SameOutside(s0, s1, lo, hi)
    && s1[lo..b] == SortOf(s0[lo..b]) && s1[b..c] == SortOf(s0[b..c])
    && s1[c..d] == SortOf(s0[c..d]) && s1[d..hi] == SortOf(s0[d..hi])
  }

  lemma FourSegments(s0: seq<int>, s1: seq<int>, s2: seq<int>, s3: seq<int>, s4: seq<int>,
                     lo: int, b: int, c: int, d: int, hi: int)
    requires 0 <= lo <= b <= c <= d <= hi <= |s0| == |s1| == |s2| == |s3|
    requires SortedIn(s0, s1, lo, b) && SortedIn(s1, s2, b, c)
    requires SortedIn(s2, s3, c, d) && SortedIn(s3, s4, d, hi)
    ensures QuartersSorted(s0, s4, lo, b, c, d, hi)
  {
    hide SortOf, SameOutside;
    TwoSegments(s0, s1, s2, lo, b, c);
    TwoSegments(s0, s2, s3, lo, c, d);
    TwoSegments(s0, s3, s4, lo, d, hi);
    TwoSegments(s1, s2, s3, b, c, d);
    TwoSegments(s1, s3, s4, b, d, hi);
    TwoSegments(s2, s3, s4, c, d, hi);
    Inner(s2, s3, lo, b, c, d);
    Inner(s3, s4, lo, b, d, hi);
  }

  lemma Inner(s: seq<int>, t: seq<int>, lo: int, b: int, c: int, d: int)
    requires SameOutside(s, t, c, d) && 0 <= lo <= b <= c <= d <= |s|
    ensures s[lo..b] == t[lo..b]
  {
  }

  /** The merge of the merged quarters is the sorted whole. */
  lemma AllElements(s0: seq<int>, s1: seq<int>, lo: int, b: int, c: int, d: int, hi: int, ab: seq<int>, cd: seq<int>)
    requires 0 <= lo <= b <= c <= d <= hi <= |s0| && QuartersSorted(s0, s1, lo, b, c, d, hi)
    requires ab == SortOf(s1[lo..b] + s1[b..c]) && cd == SortOf(s1[c..d] + s1[d..hi])
    ensures SortOf(ab + cd) == SortOf(s0[lo..hi])
  {
    hide SortOf, Sorted, SameOutside;
    SortOfSorts(s0[lo..b]);
    SortOfSorts(s0[b..c]);
    SortOfSorts(s0[c..d]);
    SortOfSorts(s0[d..hi]);
    SortOfSorts(s1[lo..b] + s1[b..c]);
    SortOfSorts(s1[c..d] + s1[d..hi]);
    assert s0[lo..hi] == (s0[lo..b] + s0[b..c]) + (s0[c..d] + s0[d..hi]);
    SortOfSameElements(ab + cd, s0[lo..hi]);
  }

  /** The first phase: sort the four parts, each with its own part of tmp. */
  method SortQuarters(a: array<int>, low: int, tmp: array<int>, t: int, size: nat, quarter: nat,
                      mergeSize: nat, quickSize: nat, insertionSize: nat)
    requires a != tmp && 2 <= mergeSize && 4 <= quickSize <= size && 1 <= insertionSize && quarter == size / 4
    requires 0 <= low && low + size <= a.Length && 0 <= t && t + size <= tmp.Length
    modifies a, tmp
    ensures QuartersSorted(old(a[..]), a[..], low, low + quarter, low + 2 * quarter, low + 3 * quarter, low + size)
    ensures SameOutside(old(tmp[..]), tmp[..], t, t + size)
    decreases size, 0
  {
    hide SortedIn, SameOutside, QuartersSorted;
    var b, c, d := low + quarter, low + 2 * quarter, low + 3 * quarter;
    ghost var s0, t0 := a[..], tmp[..];
    CilkSort(a, low, tmp, t, quarter, mergeSize, quickSize, insertionSize);
    ghost var s1, t1 := a[..], tmp[..];
    CilkSort(a, b, tmp, t + quarter, quarter, mergeSize, quickSize, insertionSize);
    ghost var s2, t2 := a[..], tmp[..];
    CilkSort(a, c, tmp, t + 2 * quarter, quarter, mergeSize, quickSize, insertionSize);
    ghost var s3, t3 := a[..], tmp[..];
    CilkSort(a, d, tmp, t + 3 * quarter, size - 3 * quarter, mergeSize, quickSize, insertionSize);
    FourSegments(s0, s1, s2, s3, a[..], low, b, c, d, low + size);
    Wider(t0, t1, t, t + quarter, t, t + size);
    SameOutsideTwice(t0, t1, t2, t, t + size, t + quarter, t + 2 * quarter);
    SameOutsideTwice(t0, t2, t3, t, t + size, t + 2 * quarter, t + 3 * quarter);
    SameOutsideTwice(t0, t3, tmp[..], t, t + size, t + 3 * quarter, t + size);
  }

  lemma Wider(s: seq<int>, t: seq<int>, lo: int, hi: int, lo': int, hi': int)
    requires SameOutside(s, t, lo, hi) && lo' <= lo && hi <= hi'
    ensures SameOutside(s, t, lo', hi')
  {
  }

  /** Splicing in at `at`, seen from a segment. */
  lemma SpliceSegment(s: seq<int>, at: int, t: seq<int>)
    requires 0 <= at && at + |t| <= |s|
    ensures Splice(s, at, t)[at..at + |t|] == t && SameOutside(s, Splice(s, at, t), at, at + |t|)
  {
  }

  /** The two merges out of a leave the two halves of tmp sorted. */
  method MergePairs(a: array<int>, low: int, tmp: array<int>, t: int, size: nat, quarter: nat, mergeSize: nat,
                    ghost s0: seq<int>)
    requires a != tmp && 2 <= mergeSize && 1 <= quarter == size / 4
    requires 0 <= low && low + size <= a.Length == |s0| && 0 <= t && t + size <= tmp.Length
    requires QuartersSorted(s0, a[..], low, low + quarter, low + 2 * quarter, low + 3 * quarter, low + size)
    modifies tmp
    ensures SameOutside(old(tmp[..]), tmp[..], t, t + size)
    ensures Sorted(tmp[t..t + 2 * quarter]) && Sorted(tmp[t + 2 * quarter..t + size])
    ensures SortOf(tmp[t..t + 2 * quarter] + tmp[t + 2 * quarter..t + size]) == SortOf(s0[low..low + size])
  {
    hide Splice, SameOutside, SortOf, Sorted, InOrder, QuartersSorted;
    var b, c, d := low + quarter, low + 2 * quarter, low + 3 * quarter;
    ghost var s1, t0 := a[..], tmp[..];
    QuartersInOrder(s0, s1, low, b, c, d, low + size);
    CilkMerge(a, low, low + quarter - 1, b, b + quarter - 1, tmp, t, mergeSize, s1);
    ghost var t1 := tmp[..];
    CilkMerge(a, c, c + quarter - 1, d, low + size - 1, tmp, t + 2 * quarter, mergeSize, s1);
    ghost var t2 := tmp[..];
    assert t2[t..t + 2 * quarter] == tmp[t..t + 2 * quarter] && t2[t + 2 * quarter..t + size] == tmp[t + 2 * quarter..t + size];
    PairsMerged(s0, s1, t0, t1, t2, low, b, c, d, low + size, t, t + 2 * quarter, t + size);
  }

  /** What the two merges leave. */
  lemma PairsMerged(s0: seq<int>, s1: seq<int>, t0: seq<int>, t1: seq<int>, t2: seq<int>,
                    lo: int, b: int, c: int, d: int, hi: int, at: int, mid: int, end: int)
    requires 0 <= lo <= b <= c <= d <= hi <= |s0| == |s1| && 0 <= at <= mid <= end <= |t0|
    requires mid - at == c - lo && end - mid == hi - c && QuartersSorted(s0, s1, lo, b, c, d, hi)
    requires t1 == Splice(t0, at, SortOf(s1[lo..b] + s1[b..c])) && t2 == Splice(t1, mid, SortOf(s1[c..d] + s1[d..hi]))
    ensures |t2| == |t0| && SameOutside(t0, t2, at, end) && Sorted(t2[at..mid]) && Sorted(t2[mid..end])
    ensures SortOf(t2[at..mid] + t2[mid..end]) == SortOf(s0[lo..hi])
  {
    hide Splice, SameOutside, SortOf, Sorted, InOrder, QuartersSorted;
    var ab, cd := SortOf(s1[lo..b] + s1[b..c]), SortOf(s1[c..d] + s1[d..hi]);
    SpliceSegment(t0, at, ab);
    SpliceSegment(t1, mid, cd);
    TwoSegments(t0, t1, t2, at, mid, end);
    SortOfSorts(s1[lo..b] + s1[b..c]);
    SortOfSorts(s1[c..d] + s1[d..hi]);
    AllElements(s0, s1, lo, b, c, d, hi, ab, cd);
  }

  lemma QuartersInOrder(s0: seq<int>, s1: seq<int>, lo: int, b: int, c: int, d: int, hi: int)
    requires 0 <= lo <= b <= c <= d <= hi <= |s0| && QuartersSorted(s0, s1, lo, b, c, d, hi)
    ensures InOrder(s1, lo, b) && InOrder(s1, b, c) && InOrder(s1, c, d) && InOrder(s1, d, hi)
  {
    hide SortOf, Sorted, InOrder, SameOutside;
    SortOfSorts(s0[lo..b]);
    SortOfSorts(s0[b..c]);
    SortOfSorts(s0[c..d]);
    SortOfSorts(s0[d..hi]);
    SortedSegment(s1, lo, b);
    SortedSegment(s1, b, c);
    SortedSegment(s1, c, d);
    SortedSegment(s1, d, hi);
  }

  /** Sort a[low..low + size), using tmp[t..t + size) as scratch: for every size, and all parameters the
      comments ask for, the segment ends up sorted with the same elements, and nothing else of `a` changes. */
  method CilkSort(a: array<int>, low: int, tmp: array<int>, t: int, size: nat,
                  mergeSize: nat, quickSize: nat, insertionSize: nat)
    requires a != tmp && 2 <= mergeSize && 4 <= quickSize && 1 <= insertionSize
    requires 0 <= low && low + size <= a.Length && 0 <= t && t + size <= tmp.Length
    modifies a, tmp
    ensures SortedIn(old(a[..]), a[..], low, low + size)
    ensures SameOutside(old(tmp[..]), tmp[..], t, t + size)
    decreases size, 1
  {
    hide SortedIn, SameOutside, QuartersSorted, Shuffled, InOrder, Splice, SortOf, Sorted;
    var quarter := size / 4;
    ghost var s0, t0 := a[..], tmp[..];
    if size < quickSize {
      SeqQuick(a, low, low + size - 1, insertionSize);
      QuickSortsIn(s0, a[..], low, low + size);
      SameOutsideSelf(t0, t, t + size);
      return;
    }
    SortQuarters(a, low, tmp, t, size, quarter, mergeSize, quickSize, insertionSize);
    ghost var s1, t1 := a[..], tmp[..];
    MergePairs(a, low, tmp, t, size, quarter, mergeSize, s0);
    ghost var t2 := tmp[..];
    SameOutsideTwice(t0, t1, t2, t, t + size, t, t + size);
    assert t2[t..t + 2 * quarter] == tmp[t..t + 2 * quarter];
    assert t2[t + 2 * quarter..t + size] == tmp[t + 2 * quarter..t + size];
    SortedSegment(t2, t, t + 2 * quarter);
    SortedSegment(t2, t + 2 * quarter, t + size);
    CilkMerge(tmp, t, t + 2 * quarter - 1, t + 2 * quarter, t + size - 1, a, low, mergeSize, t2);
    LastMerge(s0, s1, low, low + quarter, low + 2 * quarter, low + 3 * quarter, low + size, t2, t, quarter);
  }

  lemma SameOutsideSelf(s: seq<int>, lo: int, hi: int)
    ensures SameOutside(s, s, lo, hi)
  {
  }

  lemma LastMerge(s0: seq<int>, s1: seq<int>, lo: int, b: int, c: int, d: int, hi: int, t: seq<int>, at: int, quarter: int)
    requires 0 <= lo <= b <= c <= d <= hi <= |s0| && QuartersSorted(s0, s1, lo, b, c, d, hi)
    requires 0 <= at <= at + 2 * quarter <= at + hi - lo <= |t|
    requires SortOf(t[at..at + 2 * quarter] + t[at + 2 * quarter..at + hi - lo]) == SortOf(s0[lo..hi])
    ensures |s1| == |s0|
    ensures SortedIn(s0, Splice(s1, lo, Merged(t, at, at + 2 * quarter - 1, at + 2 * quarter, at + hi - lo - 1)), lo, hi)
  {
    hide SortOf, Sorted, Splice;
    var m := Merged(t, at, at + 2 * quarter - 1, at + 2 * quarter, at + hi - lo - 1);
    assert m == SortOf(s0[lo..hi]);
    SpliceSegment(s1, lo, m);
    SameOutsideTwice(s0, s1, Splice(s1, lo, m), lo, hi, lo, hi);
  }
}
