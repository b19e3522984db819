/**
 seqquick, seqpart and insertion_sort one loop turn at a time, on one memory: the steps a strand takes in a leaf of
 cilksort, between which other strands may run.
 */
module QuickTasks {
  import opened Sorting
  import opened CilkSort

  /** Where a strand is, and its local variables; [low, high] is the segment. */
  datatype Step =
    | Quick(low: int, high: int)                                       // seqquick's test
    | Down(low: int, high: int, i: int, j: int, pivot: int)            // seqpart's scan from currHigh = j down
    | Up(low: int, high: int, i: int, j: int, pivot: int)              // seqpart's scan from currLow = i up
    | Insert(low: int, high: int, q: int)                              // insertion_sort's outer loop
    | Shift(low: int, p: int, x: int)                                  // its inner loop: x is looking for its place

  /** What is left to do. */
  datatype Next = Over | Go(s: Step) | Both(first: Step, second: Step)

  datatype Effect = Effect(next: Next, mem: seq<int>)

  predicate Sensible(n: int, s: Step) {
    match s
    case Quick(low, high) => 0 <= low <= high + 1 <= n
    case Down(low, high, i, j, _) => 0 <= low < high < n && low <= i <= high + 1 && low - 1 <= j <= high
    case Up(low, high, i, j, _) => 0 <= low < high < n && low <= i <= high + 1 && low - 1 <= j <= high
    case Insert(low, high, q) => 0 <= low <= high + 1 <= n && low < q
    case Shift(low, p, _) => 0 <= low <= p + 1 < n
  }

  /** The cells a step and what is left after it read and write. */
  predicate Own(s: Step, x: int) {
    match s
    case Quick(low, high) => low <= x <= high
    case Down(low, high, _, _, _) => low <= x <= high
    case Up(low, high, _, _, _) => low <= x <= high
    case Insert(low, high, _) => low <= x <= high
    case Shift(low, p, _) => low <= x <= p + 1
  }

  /** One turn of a loop.  From a state that seqpart does not get into, as one in which a scan has left the segment, nothing is
      left to do; `QuickIsSortOf` shows that there is none on the way. */
  function Run(insertionSize: nat, s: Step, m: seq<int>): Effect
    requires Sensible(|m|, s) && 1 <= insertionSize
  {
    match s
    case Quick(low, high) =>
      if high - low >= insertionSize then
        Effect(Go(Down(low, high, low, high, Med3(m[low], m[high], m[low + (high - low) / 2]))), m)
      else Effect(Go(Insert(low, high, low + 1)), m)
    case Down(low, high, i, j, pivot) =>
      if j < low then Effect(Over, m)
      else if m[j] > pivot then Effect(Go(Down(low, high, i, j - 1, pivot)), m)
      else Effect(Go(Up(low, high, i, j, pivot)), m)
    case Up(low, high, i, j, pivot) =>
      if i > high then Effect(Over, m)
      else if m[i] < pivot then Effect(Go(Up(low, high, i + 1, j, pivot)), m)
      else if i < j then Effect(Go(Down(low, high, i + 1, j - 1, pivot)), m[j := m[i]][i := m[j]])
      else Effect(Parts(low, high, if j < high then j else j - 1), m)
    case Insert(low, high, q) =>
      if q <= high then Effect(Both(Shift(low, q - 1, m[q]), Insert(low, high, q + 1)), m) else Effect(Over, m)
    case Shift(low, p, x) =>
      if p >= low && m[p] > x then Effect(Go(Shift(low, p - 1, x)), m[p + 1 := m[p]]) else Effect(Over, m[p + 1 := x])
  }

  /** After partitioning at p: the recursive call, and the next turn of seqquick's loop. */
  function Parts(low: int, high: int, p: int): Next {
    if low <= p < high then Both(Quick(low, p), Quick(p + 1, high)) else Over
  }

  // ---------------------------------------------------------------- it ends, and stays where it is

  function Nat(x: int): nat {
    if x < 0 then 0 else x
  }

  function Square(x: nat): nat {
    x * x
  }

  /** Steps of a quicksort of n cells, at most as deep as this. */
  function Deep(n: nat): nat {
    2 * Square(n) + 6 * n + 6
  }

  function Depth(s: Step): nat {
    match s
    case Quick(low, high) => Deep(Nat(high - low + 1))
    case Down(low, high, i, j, _) => Deep(Nat(high - low)) + 2 * (Nat(j - low + 1) + Nat(high - i + 1)) + 2
    case Up(low, high, i, j, _) => Deep(Nat(high - low)) + 2 * (Nat(j - low + 1) + Nat(high - i + 1)) + 1
    case Insert(low, high, q) => Nat(high - q + 1) + Nat(high - low + 2) + 1
    case Shift(low, p, _) => Nat(p - low + 1)
  }

  /** One cell fewer makes room for a whole level of steps, or of tasks. */
  lemma SquareGrows(a: nat, b: nat)
    requires a < b
    ensures Square(a) + 2 * a + 1 <= Square(b)
  {
    assert (a + 1) * (a + 1) <= b * b by { assert (a + 1) * (a + 1) <= b * (a + 1) <= b * b; }
    assert (a + 1) * (a + 1) == a * a + 2 * a + 1;
  }

  lemma DeepGrows(a: nat, b: nat)
    requires a < b
    ensures Deep(a) + 4 * b + 4 <= Deep(b)
  {
    hide Square;
    SquareGrows(b - 1, b);
    if a < b - 1 {
      SquareGrows(a, b - 1);
    }
  }

  ghost predicate Child(n: int, c: Step, s: Step) {
    Sensible(n, c) && Depth(c) < Depth(s) && forall x :: Own(c, x) ==> Own(s, x)
  }

  ghost predicate Children(n: int, next: Next, s: Step) {
    match next
    case Over => true
    case Go(c) => Child(n, c, s)
    case Both(c, d) => Child(n, c, s) && Child(n, d, s)
  }

  ghost predicate Same(s: Step, m: seq<int>, m': seq<int>) {
    |m| == |m'| && forall x :: 0 <= x < |m| && Own(s, x) ==> m[x] == m'[x]
  }

  ghost predicate Keeps(s: Step, m: seq<int>, m': seq<int>) {
    |m| == |m'| && forall x :: 0 <= x < |m| && !Own(s, x) ==> m[x] == m'[x]
  }

  lemma RunStays(insertionSize: nat, s: Step, m: seq<int>)
    requires Sensible(|m|, s) && 1 <= insertionSize
    ensures var e := Run(insertionSize, s, m); Keeps(s, m, e.mem) && Children(|m|, e.next, s)
  {
    hide Deep, Med3, Parts, Children;
    match s
    case Quick(low, high) =>
      QuickStays(insertionSize, low, high, m);
    case Up(_, _, _, _, _) =>
      UpStays(insertionSize, s, m);
    case Down(_, _, _, _, _) =>
      DownStays(insertionSize, s, m);
    case _ =>
      InsertStays(insertionSize, s, m);
  }

  lemma QuickStays(insertionSize: nat, low: int, high: int, m: seq<int>)
    requires Sensible(|m|, Quick(low, high)) && 1 <= insertionSize
    ensures var e := Run(insertionSize, Quick(low, high), m); e.mem == m && Children(|m|, e.next, Quick(low, high))
  {
    hide Deep, Med3;
    if low <= high {
      DeepGrows(high - low, high - low + 1);
    }
    DeepIsLarge(Nat(high - low + 1));
  }

  lemma UpStays(insertionSize: nat, s: Step, m: seq<int>)
    requires s.Up? && Sensible(|m|, s) && 1 <= insertionSize
    ensures var e := Run(insertionSize, s, m); Keeps(s, m, e.mem) && Children(|m|, e.next, s)
  {
    hide Deep, Parts;
    PartsAreSmaller(|m|, s.low, s.high, if s.j < s.high then s.j else s.j - 1, s);
  }

  lemma DownStays(insertionSize: nat, s: Step, m: seq<int>)
    requires s.Down? && Sensible(|m|, s) && 1 <= insertionSize
    ensures var e := Run(insertionSize, s, m); e.mem == m && Children(|m|, e.next, s)
  {
    hide Deep;
  }

  lemma InsertStays(insertionSize: nat, s: Step, m: seq<int>)
    requires (s.Insert? || s.Shift?) && Sensible(|m|, s) && 1 <= insertionSize
    ensures var e := Run(insertionSize, s, m); Keeps(s, m, e.mem) && Children(|m|, e.next, s)
  {
  }

  lemma DeepIsLarge(n: nat)
    ensures Deep(n) >= 6 * n + 6
  {
  }

  lemma PartsAreSmaller(n: int, low: int, high: int, p: int, s: Step)
    requires s.Up? && Sensible(n, s) && low == s.low && high == s.high
    ensures Children(n, Parts(low, high, p), s)
  {
    hide Deep;
    if low <= p < high {
      if p + 1 - low < high - low {
        DeepGrows(p + 1 - low, high - low);
      }
      if high - p < high - low {
        DeepGrows(high - p, high - low);
      }
    }
  }

  /** A step depends only on its own cells. */
  lemma RunIsLocal(insertionSize: nat, s: Step, m: seq<int>, m': seq<int>)
    requires Sensible(|m|, s) && 1 <= insertionSize && Same(s, m, m')
    ensures |m'| == |m| && Run(insertionSize, s, m').next == Run(insertionSize, s, m).next
    ensures Same(s, Run(insertionSize, s, m).mem, Run(insertionSize, s, m').mem)
  {
    hide Med3, Parts;
    match s
    case Quick(low, high) =>
      if high - low >= insertionSize {
        assert Own(s, low) && Own(s, high) && Own(s, low + (high - low) / 2);
      }
    case Down(low, high, i, j, _) => assert low <= j ==> Own(s, j);
    case Up(low, high, i, j, _) => assert (i <= high ==> Own(s, i)) && (i < j ==> Own(s, j));
    case Insert(low, high, q) => assert q <= high ==> Own(s, q);
    case Shift(low, p, x) => assert (low <= p ==> Own(s, p)) && Own(s, p + 1);
  }

  // ---------------------------------------------------------------- what it computes

  /** Memory after all of it. */
  function Finish(insertionSize: nat, s: Step, m: seq<int>): (r: seq<int>)
    requires Sensible(|m|, s) && 1 <= insertionSize
    ensures |r| == |m|
    decreases Depth(s)
  {
    RunStays(insertionSize, s, m);
    var e := Run(insertionSize, s, m);
    match e.next
    case Over => e.mem
    case Go(c) => Finish(insertionSize, c, e.mem)
    case Both(c, d) => Finish(insertionSize, d, Finish(insertionSize, c, e.mem))
  }

  /** On the way, no scan leaves the segment and every cut of seqpart leaves something on both sides. */
  predicate Clean(insertionSize: nat, s: Step, m: seq<int>)
    requires Sensible(|m|, s) && 1 <= insertionSize
    decreases Depth(s)
  {
    RunStays(insertionSize, s, m);
    var e := Run(insertionSize, s, m);
    match e.next
    case Over => !s.Down? && !s.Up?
    case Go(c) => Clean(insertionSize, c, e.mem)
    case Both(c, d) => Clean(insertionSize, c, e.mem) && Clean(insertionSize, d, Finish(insertionSize, c, e.mem))
  }

  /** One step, and then the rest. */
  lemma StepAndRest(k: nat, s: Step, m: seq<int>)
    requires Sensible(|m|, s) && 1 <= k
    ensures var e := Run(k, s, m);
      && |e.mem| == |m|
      && (e.next.Over? ==> Finish(k, s, m) == e.mem && (Clean(k, s, m) <==> !s.Down? && !s.Up?))
      && (e.next.Go? ==>
            && Sensible(|m|, e.next.s) && Depth(e.next.s) < Depth(s)
            && Finish(k, s, m) == Finish(k, e.next.s, e.mem) && (Clean(k, s, m) <==> Clean(k, e.next.s, e.mem)))
      && (e.next.Both? ==>
            && Sensible(|m|, e.next.first) && Depth(e.next.first) < Depth(s) && Sensible(|m|, e.next.second) && Depth(e.next.second) < Depth(s)
            && Finish(k, s, m) == Finish(k, e.next.second, Finish(k, e.next.first, e.mem))
            && (Clean(k, s, m) <==> Clean(k, e.next.first, e.mem) && Clean(k, e.next.second, Finish(k, e.next.first, e.mem))))
  {
    RunStays(k, s, m);
    hide Run, Sensible, Depth, Own;
  }

  ghost predicate Sorts(m: seq<int>, r: seq<int>, low: int, high: int) {
    Shuffled(m, r, low, high + 1) && InOrder(r, low, high + 1)
  }

  /** The inner loop of insertion_sort puts x, which belongs in cell p + 1, among the sorted cells below. */
  lemma {:induction false} ShiftSorts(k: nat, low: int, p: int, x: int, m: seq<int>)
    requires Sensible(|m|, Shift(low, p, x)) && 1 <= k && InOrder(m, low, p + 1)
    ensures Sorts(m[p + 1 := x], Finish(k, Shift(low, p, x), m), low, p + 1) && Clean(k, Shift(low, p, x), m)
    decreases p - low
  {
    hide Finish, Clean, Sorts, Depth, InOrder;
    StepAndRest(k, Shift(low, p, x), m);
    if p >= low && m[p] > x {
      var m' := m[p + 1 := m[p]];
      assert InOrder(m', low, p) by { StillInOrder(m, low, p); }
      ShiftSorts(k, low, p - 1, x, m');
      ShiftedDown(low, p, x, m, Finish(k, Shift(low, p - 1, x), m'));
    } else {
      InPlace(low, p, x, m);
    }
  }

  lemma StillInOrder(m: seq<int>, low: int, p: int)
    requires 0 <= low <= p && p + 1 < |m| && InOrder(m, low, p + 1)
    ensures InOrder(m[p + 1 := m[p]], low, p)
  {
  }

  lemma InPlace(low: int, p: int, x: int, m: seq<int>)
    requires 0 <= low <= p + 1 < |m| && InOrder(m, low, p + 1) && (p >= low ==> m[p] <= x)
    ensures Sorts(m[p + 1 := x], m[p + 1 := x], low, p + 1)
  {
  }

  lemma ShiftedDown(low: int, p: int, x: int, m: seq<int>, r: seq<int>)
    requires 0 <= low <= p && p + 1 < |m| && InOrder(m, low, p + 1) && m[p] > x
    requires Sorts(m[p + 1 := m[p]][p := x], r, low, p)
    ensures Sorts(m[p + 1 := x], r, low, p + 1)
  {
    hide Shuffled;
    var t, u := m[p + 1 := x], m[p + 1 := m[p]][p := x];
    Swapped(t, u, low, p, p + 1, p + 2);
    Wider(u, r, low, p + 1, low, p + 2);
    ShuffledTwice(t, u, r, low, p + 2);
    forall i | low <= i <= p ensures r[i] <= m[p] == r[p + 1] {
      ShuffledFrom(u, r, low, p + 1, i);
      OnlyBetween(u, r, low, p + 1);
    }
  }

  lemma Swapped(s: seq<int>, t: seq<int>, low: int, i: int, j: int, hi: int)
    requires 0 <= low <= i < j < hi <= |s| && t == s[i := s[j]][j := s[i]]
    ensures Shuffled(s, t, low, hi)
  {
  }

  lemma Wider(s: seq<int>, t: seq<int>, lo: int, hi: int, lo': int, hi': int)
    requires Shuffled(s, t, lo, hi) && lo' <= lo && hi <= hi'
    ensures Shuffled(s, t, lo', hi')
  {
  }

  lemma OnlyBetween(s: seq<int>, t: seq<int>, lo: int, hi: int)
    requires Shuffled(s, t, lo, hi)
    ensures |s| == |t| && forall i :: 0 <= i < |s| && !(lo <= i < hi) ==> s[i] == t[i]
  {
  }

  lemma {:induction false} InsertSorts(k: nat, low: int, high: int, q: int, m: seq<int>)
    requires Sensible(|m|, Insert(low, high, q)) && 1 <= k && InOrder(m, low, if q <= high then q else high + 1)
    ensures Sorts(m, Finish(k, Insert(low, high, q), m), low, high) && Clean(k, Insert(low, high, q), m)
    decreases high - q
  {
    hide Shuffled, InOrder, Finish, Clean, Depth;
    StepAndRest(k, Insert(low, high, q), m);
    if q <= high {
      var s := Shift(low, q - 1, m[q]);
      ShiftSorts(k, low, q - 1, m[q], m);
      assert m[q := m[q]] == m;
      var m1 := Finish(k, s, m);
      InsertSorts(k, low, high, q + 1, m1);
      Wider(m, m1, low, q + 1, low, high + 1);
      ShuffledTwice(m, m1, Finish(k, Insert(low, high, q + 1), m1), low, high + 1);
    } else {
      ShuffledSelf(m, low, high + 1);
    }
  }

  lemma {:induction false} QuickSorts(k: nat, low: int, high: int, m: seq<int>)
    requires Sensible(|m|, Quick(low, high)) && 1 <= k
    ensures Sorts(m, Finish(k, Quick(low, high), m), low, high) && Clean(k, Quick(low, high), m)
    decreases Depth(Quick(low, high))
  {
    hide Sorts, Depth, Finish, Clean;
    StepAndRest(k, Quick(low, high), m);
    if high - low >= k {
      var mid := low + (high - low) / 2;
      var pivot := Med3(m[low], m[high], m[mid]);
      var d := if m[low] == pivot then low else if m[mid] == pivot then mid else high;
      DownSorts(k, low, high, low, high, pivot, d, d, m);
    } else {
      InsertSorts(k, low, high, low + 1, m);
    }
  }

  lemma {:induction false} DownSorts(k: nat, low: int, high: int, i: int, j: int, pivot: int, d: int, u: int, m: seq<int>)
    requires low < high && Parting(m, low, high, i, j, pivot, d, u) && 1 <= k
    ensures Sorts(m, Finish(k, Down(low, high, i, j, pivot), m), low, high) && Clean(k, Down(low, high, i, j, pivot), m)
    decreases Depth(Down(low, high, i, j, pivot))
  {
    hide Sorts, Depth, Finish, Clean;
    StepAndRest(k, Down(low, high, i, j, pivot), m);
    if m[j] > pivot {
      DownSorts(k, low, high, i, j - 1, pivot, d, u, m);
    } else {
      UpSorts(k, low, high, i, j, pivot, u, m);
    }
  }

  lemma {:induction false} UpSorts(k: nat, low: int, high: int, i: int, j: int, pivot: int, u: int, m: seq<int>)
    requires low < high && Parting(m, low, high, i, j, pivot, j, u) && 1 <= k
    ensures Sorts(m, Finish(k, Up(low, high, i, j, pivot), m), low, high) && Clean(k, Up(low, high, i, j, pivot), m)
    decreases Depth(Up(low, high, i, j, pivot))
  {
    hide Sorts, Depth, Finish, Clean;
    var s := Up(low, high, i, j, pivot);
    StepAndRest(k, s, m);
    if m[i] < pivot {
      UpSorts(k, low, high, i + 1, j, pivot, u, m);
    } else if i < j {
      var m1 := m[j := m[i]][i := m[j]];
      Exchanged(m, low, high, i, j, pivot, u);
      DownSorts(k, low, high, i + 1, j - 1, pivot, i, j, m1);
      SwapThenSort(m, m1, Finish(k, Down(low, high, i + 1, j - 1, pivot), m1), low, high, i, j);
    } else {
      hide Run, Sensible;
      var p := if j < high then j else j - 1;
      Parted(k, m, low, high, i, j, pivot, u);
      QuickSorts(k, low, p, m);
      var m1 := Finish(k, Quick(low, p), m);
      QuickSorts(k, p + 1, high, m1);
      PartsSorted(m, m1, Finish(k, Quick(p + 1, high), m1), low, p, high, pivot);
    }
  }

  /** At the end of the scans the step makes that cut. */
  lemma Parted(k: nat, m: seq<int>, low: int, high: int, i: int, j: int, pivot: int, u: int)
    requires low < high && Parting(m, low, high, i, j, pivot, j, u) && 1 <= k && j <= i && pivot <= m[i]
    ensures var p := if j < high then j else j - 1;
      && low <= p < high
      && Run(k, Up(low, high, i, j, pivot), m) == Effect(Both(Quick(low, p), Quick(p + 1, high)), m)
      && Sensible(|m|, Quick(low, p)) && Sensible(|m|, Quick(p + 1, high))
      && (forall x :: low <= x <= p ==> m[x] <= pivot) && (forall x :: p < x <= high ==> pivot <= m[x])
  {
    Cut(m, low, high, i, j, pivot, u);
  }

  lemma SwapThenSort(m: seq<int>, m1: seq<int>, r: seq<int>, low: int, high: int, i: int, j: int)
    requires 0 <= low <= i < j <= high < |m| && m1 == m[j := m[i]][i := m[j]] && Sorts(m1, r, low, high)
    ensures Sorts(m, r, low, high)
  {
    Swapped(m, m1, low, i, j, high + 1);
    hide Shuffled;
    ShuffledTwice(m, m1, r, low, high + 1);
  }

  /** Sorting both sides of a partition sorts the segment. */
  lemma PartsSorted(m: seq<int>, m1: seq<int>, r: seq<int>, low: int, p: int, high: int, pivot: int)
    requires 0 <= low <= p < high < |m| && Sorts(m, m1, low, p) && Sorts(m1, r, p + 1, high)
    requires (forall x :: low <= x <= p ==> m[x] <= pivot) && (forall x :: p < x <= high ==> pivot <= m[x])
    ensures Sorts(m, r, low, high)
  {
    hide Shuffled;
    OnlyBetween(m, m1, low, p + 1);
    OnlyBetween(m1, r, p + 1, high + 1);
    forall x | low <= x <= p ensures r[x] <= pivot {
      ShuffledFrom(m, m1, low, p + 1, x);
    }
    forall x | p < x <= high ensures pivot <= r[x] {
      ShuffledFrom(m1, r, p + 1, high + 1, x);
    }
    Wider(m, m1, low, p + 1, low, high + 1);
    Wider(m1, r, p + 1, high + 1, low, high + 1);
    ShuffledTwice(m, m1, r, low, high + 1);
    forall x, y | low <= x < y <= high ensures r[x] <= r[y] {
      assert y <= p ==> m1[x] <= m1[y];
    }
  }

  /** A leaf, step by step, sorts its segment and leaves the rest of memory alone, and seqpart keeps to the segment. */
  lemma QuickIsSortOf(k: nat, low: int, high: int, m: seq<int>)
    requires Sensible(|m|, Quick(low, high)) && 1 <= k
    ensures Finish(k, Quick(low, high), m) == Splice(m, low, SortOf(m[low..high + 1])) && Clean(k, Quick(low, high), m)
  {
    hide SortOf;
    QuickSorts(k, low, high, m);
    var r := Finish(k, Quick(low, high), m);
    ShuffledSegment(m, r, low, high + 1);
    SegmentSorted(r, low, high + 1);
    SortedIsSortOf(m[low..high + 1], r[low..high + 1]);
    SpliceBack(m, r, low, high + 1);
  }

  lemma SpliceBack(m: seq<int>, r: seq<int>, lo: int, hi: int)
    requires 0 <= lo <= hi <= |m| && Shuffled(m, r, lo, hi)
    ensures r == Splice(m, lo, r[lo..hi])
  {
  }
}
