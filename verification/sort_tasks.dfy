/**
 cilksort.cpp and cilksort-future.cpp as tasks that any number of processors may interleave: who reads
 and writes what, why siblings never conflict, and what every schedule computes.  One memory holds both
 buffers; addresses are indices into it.  A future created and got amounts to a spawn and its sync, as
 `sort_futures.dfy` shows.
 */
module SortTasks {
  import opened Sorting
  import opened CilkSort
  import opened ForkJoin
  import QuickTasks

  datatype Params = Params(mergeSize: int, quickSize: int, insertionSize: nat)

  /** Two source ranges, both ends included, and where to merge them to. */
  datatype Ranges = Ranges(l1: int, h1: int, l2: int, h2: int, d: int) {
    /** The number of cells the merge moves. */
    function Cells(): int {
      h1 - l1 + 1 + h2 - l2 + 1
    }

    predicate Fit(n: int) {
      && 0 <= l1 <= h1 + 1 <= n && 0 <= l2 <= h2 + 1 <= n && 0 <= d && d + Cells() <= n
      && Clear(d, Cells(), l1, h1 - l1 + 1) && Clear(d, Cells(), l2, h2 - l2 + 1)
    }

    function Middle(): int {
      (h1 - l1 + 1) / 2 + l1
    }
  }

  datatype Task =
    | Sort(low: int, tmp: int, size: int)
    | Merge(g: Ranges)
    | Split(g: Ranges, lo: int, hi: int)   // binsplit's loop
    | Copying(g: Ranges)                   // seqmerge's loops
    | Leaf(s: QuickTasks.Step)             // seqquick

  predicate Span(x: int, lo: int, n: int) {
    lo <= x < lo + n
  }

  predicate Clear(a: int, n: int, b: int, k: int) {
    a + n <= b || b + k <= a
  }

  /** A segment and a separate one of the same size to work in. */
  predicate Layout(n: int, low: int, tmp: int, size: int) {
    0 <= size && 0 <= low && low + size <= n && 0 <= tmp && tmp + size <= n && Clear(low, size, tmp, size)
  }

  /** The tasks that make sense in a memory of n cells. */
  predicate Sensible(P: Params, n: int, t: Task) {
    match t
    case Sort(low, tmp, size) => Layout(n, low, tmp, size)
    case Merge(g) => g.Fit(n) && 1 <= g.Cells()
    case Split(g, lo, hi) => g.Fit(n) && g.l2 <= lo <= hi <= g.h2 && P.mergeSize <= g.h2 - g.l2 <= g.h1 - g.l1
    case Copying(g) => g.Fit(n)
    case Leaf(s) => QuickTasks.Sensible(n, s)
  }

  predicate Source(g: Ranges, x: int) {
    g.l1 <= x <= g.h1 || g.l2 <= x <= g.h2
  }

  /** A merge reads its two ranges. */
  predicate Reading(t: Task, x: int) {
    !t.Sort? && !t.Leaf? && Source(t.g, x)
  }

  /** A merge writes the cells from its destination on and no others; a sort its two segments; a leaf its segment. */
  predicate Writing(t: Task, x: int) {
    match t
    case Sort(low, tmp, size) => Span(x, low, size) || Span(x, tmp, size)
    case Leaf(s) => QuickTasks.Own(s, x)
    case _ => Span(x, t.g.d, t.g.Cells())
  }

  // ---------------------------------------------------------------- what the tasks do

  ghost function RunSort(P: Params, low: int, tmp: int, size: int, m: Mem): Outcome<Task>
    requires Sensible(P, |m|, Sort(low, tmp, size))
  {
    if size < P.quickSize then Outcome(Call(Leaf(QuickTasks.Quick(low, low + size - 1))), m)
    else Outcome(Then(Sorts(low, tmp, size, size / 4), Then(Merges(low, tmp, size, size / 4), Last(low, tmp, size, size / 4))), m)
  }

  function Sorts(low: int, tmp: int, size: int, q: int): Proc<Task> {
    Par(Par(Par(Call(Sort(low, tmp, q)), Call(Sort(low + q, tmp + q, q))),
            Call(Sort(low + 2 * q, tmp + 2 * q, q))),
        Call(Sort(low + 3 * q, tmp + 3 * q, size - 3 * q)))
  }

  function Merges(low: int, tmp: int, size: int, q: int): Proc<Task> {
    Par(Call(Merge(AB(low, tmp, q))), Call(Merge(CD(low, tmp, size, q))))
  }

  function Last(low: int, tmp: int, size: int, q: int): Proc<Task> {
    Call(Merge(Whole(low, tmp, size, q)))
  }

  function AB(low: int, tmp: int, q: int): Ranges {
    Ranges(low, low + q - 1, low + q, low + 2 * q - 1, tmp)
  }

  function CD(low: int, tmp: int, size: int, q: int): Ranges {
    Ranges(low + 2 * q, low + 3 * q - 1, low + 3 * q, low + size - 1, tmp + 2 * q)
  }

  function Whole(low: int, tmp: int, size: int, q: int): Ranges {
    Ranges(tmp, tmp + 2 * q - 1, tmp + 2 * q, tmp + size - 1, low)
  }

  /** The longer range comes first. */
  function Swapped(g: Ranges): Ranges {
    if g.h2 - g.l2 > g.h1 - g.l1 then Ranges(g.l2, g.h2, g.l1, g.h1, g.d) else g
  }

  /** cilkmerge up to its first access. */
  function RunMerge(P: Params, g: Ranges, m: Mem): Outcome<Task> {
    var s := Swapped(g);
    if s.h2 - s.l2 < P.mergeSize then Outcome(Call(Copying(s)), m) else Outcome(Call(Split(s, s.l2, s.h2)), m)
  }

  /** One turn of binsplit's loop; at the end of it, place the splitting element and spawn. */
  function RunSplit(P: Params, g: Ranges, lo: int, hi: int, m: Mem): Outcome<Task>
    requires Sensible(P, |m|, Split(g, lo, hi)) && 2 <= P.mergeSize
  {
    if lo != hi then
      var mid := lo + (hi - lo + 1) / 2;
      if m[g.Middle()] <= m[mid] then Outcome(Call(Split(g, lo, mid - 1)), m) else Outcome(Call(Split(g, mid, hi)), m)
    else
      var split2 := if m[lo] > m[g.Middle()] then lo - 1 else lo;
      Outcome(Halves(g, split2), m[Place(g, split2) := m[g.Middle()]])
  }

  /** Where the splitting element goes: after what is below it in both ranges. */
  function Place(g: Ranges, split2: int): int {
    g.d + (g.Middle() - g.l1 + split2 - g.l2) + 1
  }

  function Lower(g: Ranges, split2: int): Ranges {
    Ranges(g.l1, g.Middle() - 1, g.l2, split2, g.d)
  }

  function Upper(g: Ranges, split2: int): Ranges {
    Ranges(g.Middle() + 1, g.h1, split2 + 1, g.h2, Place(g, split2) + 1)
  }

  function Halves(g: Ranges, split2: int): Proc<Task> {
    Par(Call(Merge(Lower(g, split2))), Call(Merge(Upper(g, split2))))
  }

  /** One cell of a sequential merge. */
  function RunCopying(g: Ranges, m: Mem): Outcome<Task>
    requires g.Fit(|m|)
  {
    if g.l1 <= g.h1 && (g.l2 > g.h2 || m[g.l1] < m[g.l2]) then
      Outcome(Call(Copying(g.(l1 := g.l1 + 1, d := g.d + 1))), m[g.d := m[g.l1]])
    else if g.l2 <= g.h2 then
      Outcome(Call(Copying(g.(l2 := g.l2 + 1, d := g.d + 1))), m[g.d := m[g.l2]])
    else Outcome(Done, m)
  }

  /** One turn of a loop of seqquick, seqpart or insertion_sort. */
  function RunLeaf(P: Params, s: QuickTasks.Step, m: Mem): Outcome<Task>
    requires QuickTasks.Sensible(|m|, s) && 1 <= P.insertionSize
  {
    var e := QuickTasks.Run(P.insertionSize, s, m);
    Outcome(Following(e.next), e.mem)
  }

  function Following(next: QuickTasks.Next): Proc<Task> {
    match next
    case Over => Done
    case Go(s) => Call(Leaf(s))
    case Both(s, u) => Then(Call(Leaf(s)), Call(Leaf(u)))
  }

  ghost function Run(P: Params, t: Task, m: Mem): Outcome<Task>
    requires Sensible(P, |m|, t) && Allowed(P)
  {
    match t
    case Sort(low, tmp, size) => RunSort(P, low, tmp, size, m)
    case Merge(g) => RunMerge(P, g, m)
    case Split(g, lo, hi) => RunSplit(P, g, lo, hi, m)
    case Copying(g) => RunCopying(g, m)
    case Leaf(s) => RunLeaf(P, s, m)
  }

  function Depth(t: Task): nat {
    match t
    case Sort(_, _, size) => QuickTasks.Deep(QuickTasks.Nat(size)) + 1
    case Merge(g) => 2 * QuickTasks.Square(QuickTasks.Nat(g.Cells())) + 2 * QuickTasks.Nat(g.Cells()) + 2
    case Split(g, lo, hi) => 2 * QuickTasks.Square(QuickTasks.Nat(g.Cells())) + QuickTasks.Nat(hi - lo) + 1
    case Copying(g) => QuickTasks.Nat(g.Cells())
    case Leaf(s) => QuickTasks.Depth(s)
  }

  predicate Allowed(P: Params) {
    2 <= P.mergeSize && 4 <= P.quickSize && 1 <= P.insertionSize
  }

  ghost function SortLang(P: Params, n: nat): Lang<Task>
    requires Allowed(P)
  {
    Lang(n, (t: Task, m: Mem) => if Sensible(P, |m|, t) then Run(P, t, m) else Outcome(Done, m),
         Reading, Writing, Depth, (t: Task) => Sensible(P, n, t))
  }

  // ---------------------------------------------------------------- no conflicts

  /** c makes sense and may run inside t. */
  ghost predicate Child(P: Params, n: nat, c: Task, t: Task) {
    && Sensible(P, n, c) && Depth(c) < Depth(t)
    && forall x :: (Writing(c, x) ==> Writing(t, x)) && (Reading(c, x) ==> Reading(t, x) || Writing(t, x))
  }

  lemma ChildUnder(P: Params, n: nat, c: Task, t: Task)
    requires Allowed(P) && Child(P, n, c, t)
    ensures Under(SortLang(P, n), Call(c), t)
  {
    hide Sensible, Depth, Reading, Writing, Run;
  }

  /** Neither of two siblings writes what the other touches. */
  predicate Siblings(c: Task, c': Task, x: int) {
    !(Writing(c, x) && (Reading(c', x) || Writing(c', x))) && !(Writing(c', x) && (Reading(c, x) || Writing(c, x)))
  }

  lemma SiblingsApart(P: Params, n: nat, c: Task, c': Task)
    requires Allowed(P) && forall x :: Siblings(c, c', x)
    ensures Apart(SortLang(P, n), Call(c), Call(c'))
  {
    hide Sensible, Depth, Reading, Writing, Run;
    forall x ensures var L := SortLang(P, n);
      !(Writes(L, Call(c), x) && Touches(L, Call(c'), x)) && !(Writes(L, Call(c'), x) && Touches(L, Call(c), x)) {
      assert Siblings(c, c', x);
    }
  }

  lemma OneCell(P: Params, t: Task, m: Mem, at: int, v: int)
    requires Allowed(P) && 0 <= at < |m| && Writing(t, at)
    ensures Keeps(SortLang(P, |m|), Call(t), m, m[at := v])
  {
    hide Sensible, Depth, Reading, Writing, Run;
  }

  lemma MergeFramed(P: Params, g: Ranges, m: Mem)
    requires Allowed(P) && Sensible(P, |m|, Merge(g))
    ensures Framed(SortLang(P, |m|), Merge(g), m)
  {
    var s := Swapped(g);
    var c := if s.h2 - s.l2 < P.mergeSize then Copying(s) else Split(s, s.l2, s.h2);
    assert Child(P, |m|, c, Merge(g));
    ChildUnder(P, |m|, c, Merge(g));
    assert Run(P, Merge(g), m) == Outcome(Call(c), m);
    hide Sensible, Depth, Reading, Writing, Run;
  }

  lemma CopyingFramed(P: Params, g: Ranges, m: Mem)
    requires Allowed(P) && Sensible(P, |m|, Copying(g))
    ensures Framed(SortLang(P, |m|), Copying(g), m)
  {
    var t, o := Copying(g), Run(P, Copying(g), m);
    if !o.rest.Done? {
      var c := o.rest.task;
      assert Child(P, |m|, c, t);
      ChildUnder(P, |m|, c, t);
      assert Writing(t, g.d);
      OneCell(P, t, m, g.d, o.mem[g.d]);
      assert o == Outcome(Call(c), m[g.d := o.mem[g.d]]);
    }
    assert o.rest.Done? ==> o == Outcome(Done, m);
    hide Sensible, Depth, Reading, Writing, Run, RunCopying;
  }

  /** The two recursive merges share out the ranges and the destination; one cell is left between them. */
  lemma HalvesShare(P: Params, n: nat, g: Ranges, lo: int, split2: int)
    requires Allowed(P) && Sensible(P, n, Split(g, lo, lo)) && lo - 1 <= split2 <= lo
    ensures Child(P, n, Merge(Lower(g, split2)), Split(g, lo, lo)) && Child(P, n, Merge(Upper(g, split2)), Split(g, lo, lo))
  {
    hide Child;
    SmallerMerge(P, n, Split(g, lo, lo), Lower(g, split2));
    SmallerMerge(P, n, Split(g, lo, lo), Upper(g, split2));
  }

  lemma SmallerMerge(P: Params, n: nat, t: Task, g: Ranges)
    requires Allowed(P) && t.Split? && Sensible(P, n, t) && 1 <= g.Cells() < t.g.Cells()
    requires t.g.l1 <= g.l1 <= g.h1 + 1 && g.h1 <= t.g.h1 && t.g.l2 <= g.l2 <= g.h2 + 1 && g.h2 <= t.g.h2
    requires t.g.d <= g.d && g.d + g.Cells() <= t.g.d + t.g.Cells()
    ensures Child(P, n, Merge(g), t)
  {
    hide QuickTasks.Square;
    QuickTasks.SquareGrows(g.Cells(), t.g.Cells());
  }

  lemma HalvesApart(P: Params, n: nat, g: Ranges, lo: int, split2: int, x: int)
    requires Allowed(P) && Sensible(P, n, Split(g, lo, lo)) && lo - 1 <= split2 <= lo
    ensures Siblings(Merge(Lower(g, split2)), Merge(Upper(g, split2)), x)
  {
  }

  lemma SensibleSplit(P: Params, n: nat, g: Ranges, lo: int, hi: int)
    requires Sensible(P, n, Split(g, lo, hi))
    ensures 0 <= lo <= hi < n && 0 <= g.Middle() < n
  {
  }

  lemma SearchChild(P: Params, n: nat, g: Ranges, lo: int, hi: int, c: Task)
    requires Allowed(P) && Sensible(P, n, Split(g, lo, hi)) && lo < hi
    requires var mid := lo + (hi - lo + 1) / 2; c == Split(g, lo, mid - 1) || c == Split(g, mid, hi)
    ensures Child(P, n, c, Split(g, lo, hi))
  {
  }

  /** The splitting element goes into the destination. */
  lemma PlaceIsOurs(P: Params, n: nat, g: Ranges, lo: int, split2: int)
    requires Allowed(P) && Sensible(P, n, Split(g, lo, lo)) && lo - 1 <= split2 <= lo
    ensures 0 <= Place(g, split2) < n && Writing(Split(g, lo, lo), Place(g, split2))
  {
  }

  lemma SplitFramed(P: Params, g: Ranges, lo: int, hi: int, m: Mem)
    requires Allowed(P) && Sensible(P, |m|, Split(g, lo, hi))
    ensures Framed(SortLang(P, |m|), Split(g, lo, hi), m)
  {
    hide Sensible, Depth, Reading, Writing, Child, Under, Halves;
    var t, o := Split(g, lo, hi), Run(P, Split(g, lo, hi), m);
    SensibleSplit(P, |m|, g, lo, hi);
    if lo != hi {
      var c := o.rest.task;
      SearchChild(P, |m|, g, lo, hi, c);
      ChildUnder(P, |m|, c, t);
      assert o == Outcome(Call(c), m);
    } else {
      var split2 := if m[lo] > m[g.Middle()] then lo - 1 else lo;
      PlaceIsOurs(P, |m|, g, lo, split2);
      assert o == Outcome(Halves(g, split2), m[Place(g, split2) := m[g.Middle()]]);
      OneCell(P, t, m, Place(g, split2), m[g.Middle()]);
      HalvesUnder(P, |m|, g, lo, split2);
    }
  }

  lemma HalvesUnder(P: Params, n: nat, g: Ranges, lo: int, split2: int)
    requires Allowed(P) && Sensible(P, n, Split(g, lo, lo)) && lo - 1 <= split2 <= lo
    ensures Under(SortLang(P, n), Halves(g, split2), Split(g, lo, lo))
  {
    hide Sensible, Depth, Reading, Writing, Run, Siblings, SortLang;
    var t, lower, upper := Split(g, lo, lo), Merge(Lower(g, split2)), Merge(Upper(g, split2));
    HalvesShare(P, n, g, lo, split2);
    forall x ensures Siblings(lower, upper, x) {
      HalvesApart(P, n, g, lo, split2, x);
    }
    ChildUnder(P, n, lower, t);
    ChildUnder(P, n, upper, t);
    SiblingsApart(P, n, lower, upper);
    ParUnder(SortLang(P, n), Call(lower), Call(upper), t);
  }

  lemma SortsUnder(P: Params, n: nat, low: int, tmp: int, size: int)
    requires Allowed(P) && Sensible(P, n, Sort(low, tmp, size)) && P.quickSize <= size
    ensures Under(SortLang(P, n), Sorts(low, tmp, size, size / 4), Sort(low, tmp, size))
  {
    hide Sensible, Depth, Reading, Writing, Run, SortLang, Under, Apart;
    SensibleSize(P, n, low, tmp, size);
    var t, q := Sort(low, tmp, size), size / 4;
    var a, b := Sort(low, tmp, q), Sort(low + q, tmp + q, q);
    var c, d := Sort(low + 2 * q, tmp + 2 * q, q), Sort(low + 3 * q, tmp + 3 * q, size - 3 * q);
    SortChild(P, n, t, 0, q);
    SortChild(P, n, t, q, q);
    SortChild(P, n, t, 2 * q, q);
    SortChild(P, n, t, 3 * q, size - 3 * q);
    SortSiblings(P, n, t, 0, q, q, q);
    SortSiblings(P, n, t, 0, q, 2 * q, q);
    SortSiblings(P, n, t, q, q, 2 * q, q);
    SortSiblings(P, n, t, 0, q, 3 * q, size - 3 * q);
    SortSiblings(P, n, t, q, q, 3 * q, size - 3 * q);
    SortSiblings(P, n, t, 2 * q, q, 3 * q, size - 3 * q);
    var L := SortLang(P, n);
    ParUnder(L, Call(a), Call(b), t);
    ParApart(L, Call(a), Call(b), Call(c));
    ParUnder(L, Par(Call(a), Call(b)), Call(c), t);
    ParApart(L, Call(a), Call(b), Call(d));
    ParApart(L, Par(Call(a), Call(b)), Call(c), Call(d));
    ParUnder(L, Par(Par(Call(a), Call(b)), Call(c)), Call(d), t);
  }

  /** Sorting k cells of the segment, with the same k cells of tmp. */
  lemma SortChild(P: Params, n: nat, t: Task, at: int, k: int)
    requires Allowed(P) && t.Sort? && Sensible(P, n, t) && 0 <= at && 0 <= k < t.size && at + k <= t.size
    ensures Under(SortLang(P, n), Call(Sort(t.low + at, t.tmp + at, k)), t)
  {
    hide QuickTasks.Square;
    QuickTasks.SquareGrows(k, t.size);
    assert Child(P, n, Sort(t.low + at, t.tmp + at, k), t);
    ChildUnder(P, n, Sort(t.low + at, t.tmp + at, k), t);
    hide SortLang, Under;
  }

  lemma SortSiblings(P: Params, n: nat, t: Task, at: int, k: int, at': int, k': int)
    requires Allowed(P) && t.Sort? && Sensible(P, n, t) && 0 <= at && 0 <= k && at + k <= at' && 0 <= k' && at' + k' <= t.size
    ensures Apart(SortLang(P, n), Call(Sort(t.low + at, t.tmp + at, k)), Call(Sort(t.low + at', t.tmp + at', k')))
  {
    var c, c' := Sort(t.low + at, t.tmp + at, k), Sort(t.low + at', t.tmp + at', k');
    forall x ensures Siblings(c, c', x) {
    }
    hide SortLang, Apart;
    SiblingsApart(P, n, c, c');
  }

  /** A merge from one of a sort's segments to the other. */
  lemma MergeChild(P: Params, n: nat, t: Task, from: int, to: int, at: int, k: int, size: int)
    requires Allowed(P) && t.Sort? && Sensible(P, n, t) && 0 <= at && 0 <= k <= size && at + size <= t.size && 1 <= size
    requires (from == t.low && to == t.tmp) || (from == t.tmp && to == t.low)
    ensures Under(SortLang(P, n), Call(Merge(Ranges(from + at, from + at + k - 1, from + at + k, from + at + size - 1, to + at))), t)
  {
    var c := Merge(Ranges(from + at, from + at + k - 1, from + at + k, from + at + size - 1, to + at));
    if size < t.size {
      QuickTasks.SquareGrows(size, t.size);
    }
    hide QuickTasks.Square;
    assert Child(P, n, c, t);
    ChildUnder(P, n, c, t);
    hide SortLang, Under;
  }

  lemma SensibleSize(P: Params, n: nat, low: int, tmp: int, size: int)
    requires Sensible(P, n, Sort(low, tmp, size))
    ensures 0 <= size
  {
  }

  lemma PairsApart(P: Params, n: nat, low: int, tmp: int, size: int, x: int)
    requires Sensible(P, n, Sort(low, tmp, size))
    ensures var q := size / 4;
      Siblings(Merge(AB(low, tmp, q)), Merge(CD(low, tmp, size, q)), x)
  {
  }

  lemma MergesUnder(P: Params, n: nat, low: int, tmp: int, size: int)
    requires Allowed(P) && Sensible(P, n, Sort(low, tmp, size)) && P.quickSize <= size
    ensures Under(SortLang(P, n), Merges(low, tmp, size, size / 4), Sort(low, tmp, size))
    ensures Under(SortLang(P, n), Last(low, tmp, size, size / 4), Sort(low, tmp, size))
  {
    hide Sensible, Depth, Reading, Writing, Run, SortLang, Under, Apart;
    SensibleSize(P, n, low, tmp, size);
    var t, q := Sort(low, tmp, size), size / 4;
    var ab, cd := Merge(AB(low, tmp, q)), Merge(CD(low, tmp, size, q));
    MergeChild(P, n, t, low, tmp, 0, q, 2 * q);
    MergeChild(P, n, t, low, tmp, 2 * q, q, size - 2 * q);
    MergeChild(P, n, t, tmp, low, 0, 2 * q, size);
    forall x ensures Siblings(ab, cd, x) {
      PairsApart(P, n, low, tmp, size, x);
    }
    SiblingsApart(P, n, ab, cd);
    ParUnder(SortLang(P, n), Call(ab), Call(cd), t);
  }

  lemma LeafChild(P: Params, n: nat, low: int, tmp: int, size: int)
    requires Allowed(P) && Sensible(P, n, Sort(low, tmp, size))
    ensures var c := Leaf(QuickTasks.Quick(low, low + size - 1)); Sensible(P, n, c) && Under(SortLang(P, n), Call(c), Sort(low, tmp, size))
  {
    hide QuickTasks.Deep;
    var c := Leaf(QuickTasks.Quick(low, low + size - 1));
    assert Child(P, n, c, Sort(low, tmp, size));
    ChildUnder(P, n, c, Sort(low, tmp, size));
    hide SortLang, Under;
  }

  lemma LeafFramed(P: Params, s: QuickTasks.Step, m: Mem)
    requires Allowed(P) && Sensible(P, |m|, Leaf(s))
    ensures Framed(SortLang(P, |m|), Leaf(s), m)
  {
    hide Depth, QuickTasks.Run, QuickTasks.Sensible, QuickTasks.Own;
    QuickTasks.RunStays(P.insertionSize, s, m);
    LeafKeeps(P, s, m);
    FollowingUnder(P, |m|, QuickTasks.Run(P.insertionSize, s, m).next, s);
  }

  lemma LeafKeeps(P: Params, s: QuickTasks.Step, m: Mem)
    requires Allowed(P) && Sensible(P, |m|, Leaf(s))
    ensures Keeps(SortLang(P, |m|), Call(Leaf(s)), m, Run(P, Leaf(s), m).mem)
  {
    hide Depth, QuickTasks.Sensible, Reading, QuickTasks.Run, QuickTasks.Own;
    QuickTasks.RunStays(P.insertionSize, s, m);
  }

  lemma FollowingUnder(P: Params, n: nat, next: QuickTasks.Next, s: QuickTasks.Step)
    requires Allowed(P) && Sensible(P, n, Leaf(s)) && QuickTasks.Children(n, next, s)
    ensures Under(SortLang(P, n), Following(next), Leaf(s))
  {
    match next
    case Over =>
    case Go(c) => LeafIn(P, n, c, s);
    case Both(c, d) =>
      LeafIn(P, n, c, s);
      LeafIn(P, n, d, s);
      hide SortLang, Under;
      ThenUnder(SortLang(P, n), Call(Leaf(c)), Call(Leaf(d)), Leaf(s));
  }

  lemma LeafIn(P: Params, n: nat, c: QuickTasks.Step, s: QuickTasks.Step)
    requires Allowed(P) && Sensible(P, n, Leaf(s)) && QuickTasks.Child(n, c, s)
    ensures Under(SortLang(P, n), Call(Leaf(c)), Leaf(s))
  {
    hide QuickTasks.Own, QuickTasks.Sensible, QuickTasks.Depth;
    assert Child(P, n, Leaf(c), Leaf(s));
    ChildUnder(P, n, Leaf(c), Leaf(s));
    hide SortLang, Under;
  }

  lemma SortFramed(P: Params, low: int, tmp: int, size: int, m: Mem)
    requires Allowed(P) && Sensible(P, |m|, Sort(low, tmp, size))
    ensures Framed(SortLang(P, |m|), Sort(low, tmp, size), m)
  {
    var L, t := SortLang(P, |m|), Sort(low, tmp, size);
    if size < P.quickSize {
      LeafChild(P, |m|, low, tmp, size);
    } else {
      MergesUnder(P, |m|, low, tmp, size);
      SortsUnder(P, |m|, low, tmp, size);
      hide Sorts, Merges, Last, Under, Sensible, Depth, Reading, Writing;
      ThenUnder(L, Merges(low, tmp, size, size / 4), Last(low, tmp, size, size / 4), t);
      ThenUnder(L, Sorts(low, tmp, size, size / 4), Then(Merges(low, tmp, size, size / 4), Last(low, tmp, size, size / 4)), t);
    }
  }

  // ---------------------------------------------------------------- what a task depends on

  /** m and m' are the same where t reads or writes. */
  ghost predicate Alike(t: Task, m: Mem, m': Mem) {
    |m| == |m'| && forall x :: 0 <= x < |m| && (Reading(t, x) || Writing(t, x)) ==> m[x] == m'[x]
  }

  lemma AlikeIsAgree(P: Params, t: Task, m: Mem, m': Mem)
    requires Allowed(P)
    ensures Agree(SortLang(P, |m|), Call(t), m, m') <==> Alike(t, m, m')
  {
    hide Reading, Writing, Sensible, Depth, Run;
    var L := SortLang(P, |m|);
    assert forall x :: Touches(L, Call(t), x) <==> Reading(t, x) || Writing(t, x);
  }

  lemma RunSortLocal(P: Params, low: int, tmp: int, size: int, m: Mem, m': Mem)
    requires Allowed(P) && Sensible(P, |m|, Sort(low, tmp, size)) && Alike(Sort(low, tmp, size), m, m')
    ensures RunSort(P, low, tmp, size, m').rest == RunSort(P, low, tmp, size, m).rest
    ensures Alike(Sort(low, tmp, size), RunSort(P, low, tmp, size, m).mem, RunSort(P, low, tmp, size, m').mem)
  {
    hide Sorts, Merges, Last;
  }

  lemma RunSplitLocal(P: Params, g: Ranges, lo: int, hi: int, m: Mem, m': Mem)
    requires Allowed(P) && Sensible(P, |m|, Split(g, lo, hi)) && Alike(Split(g, lo, hi), m, m')
    ensures RunSplit(P, g, lo, hi, m').rest == RunSplit(P, g, lo, hi, m).rest
    ensures Alike(Split(g, lo, hi), RunSplit(P, g, lo, hi, m).mem, RunSplit(P, g, lo, hi, m').mem)
  {
    hide Halves;
    assert Reading(Split(g, lo, hi), g.Middle()) && Reading(Split(g, lo, hi), lo);
    assert Reading(Split(g, lo, hi), lo + (hi - lo + 1) / 2);
  }

  lemma RunCopyingLocal(P: Params, g: Ranges, m: Mem, m': Mem)
    requires Allowed(P) && Sensible(P, |m|, Copying(g)) && Alike(Copying(g), m, m')
    ensures RunCopying(g, m').rest == RunCopying(g, m).rest
    ensures Alike(Copying(g), RunCopying(g, m).mem, RunCopying(g, m').mem)
  {
    assert g.l1 <= g.h1 ==> Reading(Copying(g), g.l1);
    assert g.l2 <= g.h2 ==> Reading(Copying(g), g.l2);
  }

  lemma RunLeafLocal(P: Params, s: QuickTasks.Step, m: Mem, m': Mem)
    requires Allowed(P) && Sensible(P, |m|, Leaf(s)) && Alike(Leaf(s), m, m')
    ensures |m'| == |m| && RunLeaf(P, s, m').rest == RunLeaf(P, s, m).rest && Alike(Leaf(s), RunLeaf(P, s, m).mem, RunLeaf(P, s, m').mem)
  {
    hide QuickTasks.Run, QuickTasks.Own;
    QuickTasks.RunIsLocal(P.insertionSize, s, m, m');
  }

  lemma RunLocal(P: Params, t: Task, m: Mem, m': Mem)
    requires Allowed(P) && Sensible(P, |m|, t) && Alike(t, m, m')
    ensures Run(P, t, m').rest == Run(P, t, m).rest && Alike(t, Run(P, t, m).mem, Run(P, t, m').mem)
  {
    hide RunSort, RunSplit, RunCopying, RunLeaf, Sensible, Alike;
    assert |m| == |m'| by { SameSize(t, m, m'); }
    match t
    case Sort(low, tmp, size) => RunSortLocal(P, low, tmp, size, m, m');
    case Merge(g) =>
    case Split(g, lo, hi) => RunSplitLocal(P, g, lo, hi, m, m');
    case Copying(g) => RunCopyingLocal(P, g, m, m');
    case Leaf(s) => RunLeafLocal(P, s, m, m');
  }

  lemma SameSize(t: Task, m: Mem, m': Mem)
    requires Alike(t, m, m')
    ensures |m| == |m'|
  {
  }

  lemma RunFramed(P: Params, t: Task, m: Mem)
    requires Allowed(P) && Sensible(P, |m|, t)
    ensures Framed(SortLang(P, |m|), t, m)
  {
    hide SortLang, Framed, Sensible;
    match t
    case Sort(low, tmp, size) => SortFramed(P, low, tmp, size, m);
    case Merge(g) => MergeFramed(P, g, m);
    case Split(g, lo, hi) => SplitFramed(P, g, lo, hi, m);
    case Copying(g) => CopyingFramed(P, g, m);
    case Leaf(s) => LeafFramed(P, s, m);
  }

  lemma TaskLocal(P: Params, t: Task, m: Mem, m': Mem)
    requires Allowed(P) && Sensible(P, |m|, t) && |m| == |m'|
    ensures Local(SortLang(P, |m|), t, m, m')
  {
    var L := SortLang(P, |m|);
    if Agree(L, Call(t), m, m') {
      AlikeIsAgree(P, t, m, m');
      RunLocal(P, t, m, m');
      RunFramed(P, t, m);
      AlikeIsAgree(P, t, Run(P, t, m).mem, Run(P, t, m').mem);
      hide Run, Sensible, Agree, Alike;
    }
  }

  /** The sort's tasks write only where they say and depend only on what they say, and wherever one
      spawns, the siblings do not conflict. */
  lemma SortIsSound(P: Params, n: nat)
    requires Allowed(P)
    ensures Sound(SortLang(P, n))
  {
    var L := SortLang(P, n);
    forall t: Task, m: Mem | L.ok(t) && |m| == L.size ensures Framed(L, t, m) {
      RunFramed(P, t, m);
    }
    forall t: Task, m: Mem, m': Mem | L.ok(t) && |m| == |m'| == L.size ensures Local(L, t, m, m') {
      TaskLocal(P, t, m, m');
    }
  }

  // ---------------------------------------------------------------- what they compute

  ghost function Result(P: Params, p: Proc<Task>, m: Mem): (r: Mem)
    requires Allowed(P) && RaceFree(SortLang(P, |m|), p)
    ensures |r| == |m|
  {
    SortIsSound(P, |m|);
    Serial(SortLang(P, |m|), p, m).mem
  }

  lemma ResultOfCall(P: Params, t: Task, m: Mem)
    requires Allowed(P) && Sensible(P, |m|, t)
    ensures |Run(P, t, m).mem| == |m| && RaceFree(SortLang(P, |m|), Run(P, t, m).rest)
    ensures RaceFree(SortLang(P, |m|), Call(t))
    ensures Result(P, Call(t), m) == Result(P, Run(P, t, m).rest, Run(P, t, m).mem)
  {
    SortIsSound(P, |m|);
    RunFramed(P, t, m);
    hide Run, Sensible, Reading, Writing, Depth;
  }

  lemma ResultOfThen(P: Params, p: Proc<Task>, q: Proc<Task>, m: Mem)
    requires Allowed(P) && RaceFree(SortLang(P, |m|), Then(p, q))
    ensures Result(P, Then(p, q), m) == Result(P, q, Result(P, p, m))
  {
    SortIsSound(P, |m|);
    hide SortLang;
  }

  lemma ResultOfPar(P: Params, p: Proc<Task>, q: Proc<Task>, m: Mem)
    requires Allowed(P) && RaceFree(SortLang(P, |m|), Par(p, q))
    ensures Result(P, Par(p, q), m) == Result(P, q, Result(P, p, m))
  {
    SortIsSound(P, |m|);
    hide SortLang;
  }

  /** What to merge, cell by cell, in memory m. */
  function Rest(m: Mem, g: Ranges): seq<int>
    requires g.Fit(|m|)
  {
    MergeFrom(m, g.l1, g.h1, g.l2, g.h2)
  }

  lemma {:induction false} MergeFromFrame(m: Mem, m': Mem, l1: int, h1: int, l2: int, h2: int)
    requires 0 <= l1 <= h1 + 1 <= |m| == |m'| && 0 <= l2 <= h2 + 1 <= |m|
    requires forall i :: l1 <= i <= h1 || l2 <= i <= h2 ==> m[i] == m'[i]
    ensures MergeFrom(m, l1, h1, l2, h2) == MergeFrom(m', l1, h1, l2, h2)
    decreases h1 - l1 + h2 - l2
  {
    if l1 > h1 {
      assert m[l2..h2 + 1] == m'[l2..h2 + 1];
    } else if l2 > h2 {
      assert m[l1..h1 + 1] == m'[l1..h1 + 1];
    } else if m[l1] < m[l2] {
      MergeFromFrame(m, m', l1 + 1, h1, l2, h2);
    } else {
      MergeFromFrame(m, m', l1, h1, l2 + 1, h2);
    }
  }

  lemma OneAtATime(m: Mem, at: int, v: int, rest: seq<int>)
    requires 0 <= at && at + 1 + |rest| <= |m|
    ensures Splice(m[at := v], at + 1, rest) == Splice(m, at, [v] + rest)
  {
  }

  /** The range the next cell comes from. */
  predicate FromFirst(g: Ranges, m: Mem)
    requires g.Fit(|m|)
  {
    g.l1 <= g.h1 && (g.l2 > g.h2 || m[g.l1] < m[g.l2])
  }

  function Advanced(g: Ranges, m: Mem): Ranges
    requires g.Fit(|m|)
  {
    if FromFirst(g, m) then g.(l1 := g.l1 + 1, d := g.d + 1) else g.(l2 := g.l2 + 1, d := g.d + 1)
  }

  lemma RestStep(g: Ranges, m: Mem)
    requires g.Fit(|m|) && g.Cells() > 0
    ensures Advanced(g, m).Fit(|m|)
    ensures Rest(m, g) == [m[if FromFirst(g, m) then g.l1 else g.l2]] + Rest(m, Advanced(g, m))
  {
    if g.l1 > g.h1 {
      assert m[g.l2..g.h2 + 1] == [m[g.l2]] + m[g.l2 + 1..g.h2 + 1];
    } else if g.l2 > g.h2 {
      assert m[g.l1..g.h1 + 1] == [m[g.l1]] + m[g.l1 + 1..g.h1 + 1];
    }
  }

  lemma CopyingStep(g: Ranges, m: Mem)
    requires g.Fit(|m|) && g.Cells() > 0
    ensures var o, g' := RunCopying(g, m), Advanced(g, m);
      o.rest == Call(Copying(g')) && g'.Fit(|m|) && |o.mem| == |m|
      && Splice(o.mem, g'.d, Rest(o.mem, g')) == Splice(m, g.d, Rest(m, g))
  {
    hide Splice, MergeFrom;
    var o, g' := RunCopying(g, m), Advanced(g, m);
    var v := m[if FromFirst(g, m) then g.l1 else g.l2];
    assert o == Outcome(Call(Copying(g')), m[g.d := v]);
    RestStep(g, m);
    MergeFromFrame(m, o.mem, g'.l1, g'.h1, g'.l2, g'.h2);
    OneAtATime(m, g.d, v, Rest(m, g'));
  }

  /** The sequential merge, cell by cell. */
  lemma {:induction false} CopyingMerges(P: Params, g: Ranges, m: Mem)
    requires Allowed(P) && g.Fit(|m|)
    ensures RaceFree(SortLang(P, |m|), Call(Copying(g)))
    ensures Result(P, Call(Copying(g)), m) == Splice(m, g.d, Rest(m, g))
    decreases g.Cells()
  {
    hide Result, Splice, MergeFrom, SortLang;
    assert Sensible(P, |m|, Copying(g));
    ResultOfCall(P, Copying(g), m);
    var o := RunCopying(g, m);
    if g.Cells() == 0 {
      NothingLeft(P, g, m);
    } else {
      CopyingStep(g, m);
      CopyingMerges(P, Advanced(g, m), o.mem);
    }
  }

  lemma NothingLeft(P: Params, g: Ranges, m: Mem)
    requires Allowed(P) && g.Fit(|m|) && g.l1 > g.h1 && g.l2 > g.h2
    ensures RaceFree(SortLang(P, |m|), Done) && Result(P, Done, m) == m == Splice(m, g.d, Rest(m, g))
  {
    SortIsSound(P, |m|);
  }

  ghost predicate Ascending(g: Ranges, m: Mem) {
    InOrder(m, g.l1, g.h1 + 1) && InOrder(m, g.l2, g.h2 + 1)
  }

  /** What merging must give. */
  ghost function Goal(m: Mem, g: Ranges): seq<int>
    requires g.Fit(|m|)
    ensures |Goal(m, g)| == g.Cells()
  {
    Merged(m, g.l1, g.h1, g.l2, g.h2)
  }

  /** binsplit's invariant: cells left of lo are below the splitting element, cells right of hi are not. */
  ghost predicate Searching(g: Ranges, lo: int, hi: int, m: Mem)
    requires 0 <= lo < |m| && -1 <= hi < |m| && 0 <= g.Middle() < |m|
  {
    && (lo == g.l2 || m[lo] < m[g.Middle()])
    && (hi == g.h2 || (hi + 1 < |m| && m[g.Middle()] <= m[hi + 1]))
  }

  ghost predicate SameSource(g: Ranges, m: Mem, m': Mem) {
    |m| == |m'| && forall x :: 0 <= x < |m| && Source(g, x) ==> m[x] == m'[x]
  }

  lemma StoreElsewhere(g: Ranges, m: Mem, at: int, v: int)
    requires g.Fit(|m|) && g.d <= at < g.d + g.Cells()
    ensures SameSource(g, m, m[at := v])
  {
  }

  lemma SpliceElsewhere(g: Ranges, m: Mem, m1: Mem, at: int, s: seq<int>)
    requires g.Fit(|m|) && SameSource(g, m, m1) && g.d <= at && at + |s| <= g.d + g.Cells()
    ensures SameSource(g, m, Splice(m1, at, s))
  {
  }

  /** Parts of the ranges, in a memory with the same sources, are in order and have the same merge. */
  lemma SubRanges(g: Ranges, s: Ranges, m: Mem, m': Mem)
    requires g.Fit(|m|) && s.Fit(|m|) && SameSource(g, m, m') && Ascending(g, m)
    requires g.l1 <= s.l1 && s.h1 <= g.h1 && g.l2 <= s.l2 && s.h2 <= g.h2
    ensures |m'| == |m| && Ascending(s, m') && Goal(m', s) == Goal(m, s)
  {
    hide SortOf;
    assert m[s.l1..s.h1 + 1] == m'[s.l1..s.h1 + 1];
    assert m[s.l2..s.h2 + 1] == m'[s.l2..s.h2 + 1];
  }

  lemma {:induction false} MergeMerges(P: Params, g: Ranges, m: Mem)
    requires Allowed(P) && Sensible(P, |m|, Merge(g)) && Ascending(g, m)
    ensures RaceFree(SortLang(P, |m|), Call(Merge(g)))
    ensures Result(P, Call(Merge(g)), m) == Splice(m, g.d, Goal(m, g))
    decreases Depth(Merge(g))
  {
    hide Result, Splice, MergeFrom, Merged, SortLang, InOrder, QuickTasks.Square;
    ResultOfCall(P, Merge(g), m);
    MergedSwap(m, g.l1, g.h1, g.l2, g.h2);
    var s := Swapped(g);
    if s.h2 - s.l2 < P.mergeSize {
      CopyingMerges(P, s, m);
      MergeFromIsMerged(m, s.l1, s.h1, s.l2, s.h2);
    } else {
      SplitMerges(P, s, s.l2, s.h2, m);
    }
  }

  lemma {:induction false} SplitMerges(P: Params, g: Ranges, lo: int, hi: int, m: Mem)
    requires Allowed(P) && Sensible(P, |m|, Split(g, lo, hi)) && Ascending(g, m) && Searching(g, lo, hi, m)
    ensures RaceFree(SortLang(P, |m|), Call(Split(g, lo, hi)))
    ensures Result(P, Call(Split(g, lo, hi)), m) == Splice(m, g.d, Goal(m, g))
    decreases Depth(Split(g, lo, hi))
  {
    hide Result, Splice, Merged, SortLang, InOrder, QuickTasks.Square;
    ResultOfCall(P, Split(g, lo, hi), m);
    if lo != hi {
      var mid := lo + (hi - lo + 1) / 2;
      if m[g.Middle()] <= m[mid] {
        SplitMerges(P, g, lo, mid - 1, m);
      } else {
        SplitMerges(P, g, mid, hi, m);
      }
    } else {
      var split2 := if m[lo] > m[g.Middle()] then lo - 1 else lo;
      HalvesMerge(P, g, lo, split2, m);
    }
  }

  lemma HalvesFit(P: Params, n: nat, g: Ranges, lo: int, split2: int)
    requires Allowed(P) && Sensible(P, n, Split(g, lo, lo)) && lo - 1 <= split2 <= lo
    ensures var lower, upper := Lower(g, split2), Upper(g, split2);
      && g.Fit(n) && lower.Fit(n) && upper.Fit(n)
      && lower.l1 == g.l1 && lower.h1 <= g.h1 && lower.l2 == g.l2 && lower.h2 <= g.h2
      && g.l1 <= upper.l1 && upper.h1 == g.h1 && g.l2 <= upper.l2 && upper.h2 == g.h2
      && Sensible(P, n, Merge(lower)) && Sensible(P, n, Merge(upper))
      && Depth(Merge(lower)) < Depth(Split(g, lo, lo)) && Depth(Merge(upper)) < Depth(Split(g, lo, lo))
      && g.d <= lower.d && lower.d + lower.Cells() == Place(g, split2) < g.d + g.Cells() && Place(g, split2) < n
      && g.l1 <= lower.h1 + 1 == g.Middle() <= g.h1 < n && g.l2 <= lo <= g.h2
  {
    HalvesShare(P, n, g, lo, split2);
  }

  /** Placing the splitting element and the two smaller merges makes the whole merge. */
  lemma HalvesSpliced(P: Params, g: Ranges, lo: int, split2: int, m: Mem)
    requires Allowed(P) && Sensible(P, |m|, Split(g, lo, lo)) && Ascending(g, m) && Searching(g, lo, lo, m)
    requires split2 == if m[lo] > m[g.Middle()] then lo - 1 else lo
    requires g.Fit(|m|) && Lower(g, split2).Fit(|m|) && Upper(g, split2).Fit(|m|) && 0 <= Place(g, split2) < |m|
    requires Lower(g, split2).d + Lower(g, split2).Cells() == Place(g, split2)
    ensures var lower, upper := Lower(g, split2), Upper(g, split2);
      Splice(Splice(m[Place(g, split2) := m[g.Middle()]], lower.d, Goal(m, lower)), upper.d, Goal(m, upper))
      == Splice(m, g.d, Goal(m, g))
  {
    hide Splice, Merged, InOrder, Depth, Clear;
    CutIsExact(m, g.l2, g.h2, m[g.Middle()], split2);
    HalvesMakeWhole(m, g.l1, g.h1, g.l2, g.h2, g.Middle(), split2, m, g.d);
  }

  /** Two sibling merges, whose ranges are parts of g's, into their parts of g's destination. */
  lemma {:induction false} TwoMerges(P: Params, g: Ranges, a: Ranges, b: Ranges, m: Mem, m1: Mem, k: nat)
    requires Allowed(P) && g.Fit(|m|) && Ascending(g, m) && SameSource(g, m, m1)
    requires Sensible(P, |m|, Merge(a)) && Sensible(P, |m|, Merge(b)) && a.Fit(|m|) && b.Fit(|m|)
    requires g.l1 <= a.l1 && a.h1 <= g.h1 && g.l2 <= a.l2 && a.h2 <= g.h2
    requires g.l1 <= b.l1 && b.h1 <= g.h1 && g.l2 <= b.l2 && b.h2 <= g.h2
    requires g.d <= a.d && a.d + a.Cells() <= g.d + g.Cells()
    requires Depth(Merge(a)) < k && Depth(Merge(b)) < k
    requires |m1| == |m| && RaceFree(SortLang(P, |m|), Par(Call(Merge(a)), Call(Merge(b))))
    ensures Result(P, Par(Call(Merge(a)), Call(Merge(b))), m1)
         == Splice(Splice(m1, a.d, Goal(m, a)), b.d, Goal(m, b))
    decreases k, 0
  {
    hide Result, Splice, SortLang, Depth, Sensible, Goal, Ascending, SameSource;
    SubRanges(g, a, m, m1);
    MergeMerges(P, a, m1);
    var m2 := Splice(m1, a.d, Goal(m, a));
    SpliceElsewhere(g, m, m1, a.d, Goal(m, a));
    SubRanges(g, b, m, m2);
    MergeMerges(P, b, m2);
    ResultOfPar(P, Call(Merge(a)), Call(Merge(b)), m1);
  }

  lemma {:induction false} HalvesMerge(P: Params, g: Ranges, lo: int, split2: int, m: Mem)
    requires Allowed(P) && Sensible(P, |m|, Split(g, lo, lo)) && Ascending(g, m) && Searching(g, lo, lo, m)
    requires split2 == if m[lo] > m[g.Middle()] then lo - 1 else lo
    ensures 0 <= Place(g, split2) < |m| && RaceFree(SortLang(P, |m|), Halves(g, split2))
    ensures Result(P, Halves(g, split2), m[Place(g, split2) := m[g.Middle()]]) == Splice(m, g.d, Goal(m, g))
    decreases Depth(Split(g, lo, lo)), 1
  {
    hide Result, Splice, SortLang, Depth, Sensible, Goal, Ascending, Searching, SameSource, Place, Lower, Upper, RaceFree;
    HalvesFit(P, |m|, g, lo, split2);
    HalvesUnder(P, |m|, g, lo, split2);
    StoreElsewhere(g, m, Place(g, split2), m[g.Middle()]);
    TwoMerges(P, g, Lower(g, split2), Upper(g, split2), m, m[Place(g, split2) := m[g.Middle()]], Depth(Split(g, lo, lo)));
    HalvesSpliced(P, g, lo, split2, m);
  }

  /** Only the two segments changed. */
  ghost predicate OnlyThere(low: int, tmp: int, size: int, m: Mem, r: Mem) {
    |r| == |m| && forall x :: 0 <= x < |m| && !Span(x, low, size) && !Span(x, tmp, size) ==> r[x] == m[x]
  }

  /** The segment is sorted, and only the two segments changed. */
  ghost predicate SortDone(low: int, tmp: int, size: int, m: Mem, r: Mem) {
    && Layout(|m|, low, tmp, size) && OnlyThere(low, tmp, size, m, r)
    && r[low..low + size] == SortOf(m[low..low + size])
  }

  /** Each quarter of the segment is sorted, and only the two segments changed. */
  ghost predicate Quartered(low: int, tmp: int, size: int, q: int, m: Mem, r: Mem) {
    && Layout(|m|, low, tmp, size) && 0 < q && 4 * q <= size && OnlyThere(low, tmp, size, m, r)
    && QuartersSorted(m[low..low + size], r[low..low + size], 0, q, 2 * q, 3 * q, size)
  }

  lemma ResultKeeps(P: Params, p: Proc<Task>, m: Mem)
    requires Allowed(P) && RaceFree(SortLang(P, |m|), p)
    ensures Keeps(SortLang(P, |m|), p, m, Result(P, p, m))
  {
    hide Run, Sensible, Reading, Writing, Depth;
    SortIsSound(P, |m|);
    SerialKeeps(SortLang(P, |m|), p, m);
  }

  lemma SliceOfSlice(m: Mem, low: int, size: int, at: int, k: int)
    requires 0 <= low && 0 <= at && 0 <= k && at + k <= size && low + size <= |m|
    ensures m[low..low + size][at..at + k] == m[low + at..low + at + k]
  {
    var s := m[low..low + size];
    assert |s| == size && forall i :: 0 <= i < size ==> s[i] == m[low + i];
  }

  lemma ResultOfFour(P: Params, a: Proc<Task>, b: Proc<Task>, c: Proc<Task>, d: Proc<Task>, m: Mem)
    requires Allowed(P) && RaceFree(SortLang(P, |m|), Par(Par(Par(a, b), c), d))
    ensures var L := SortLang(P, |m|); RaceFree(L, a) && RaceFree(L, b) && RaceFree(L, c) && RaceFree(L, d)
    ensures Result(P, Par(Par(Par(a, b), c), d), m) == Result(P, d, Result(P, c, Result(P, b, Result(P, a, m))))
  {
    hide SortLang, Result;
    ResultOfPar(P, Par(Par(a, b), c), d, m);
    ResultOfPar(P, Par(a, b), c, m);
    ResultOfPar(P, a, b, m);
  }

  lemma ResultOfThree(P: Params, a: Proc<Task>, b: Proc<Task>, c: Proc<Task>, m: Mem)
    requires Allowed(P) && RaceFree(SortLang(P, |m|), Par(a, b)) && RaceFree(SortLang(P, |m|), c)
    ensures var L := SortLang(P, |m|); RaceFree(L, a) && RaceFree(L, b) && RaceFree(L, Then(Par(a, b), c))
    ensures Result(P, Then(Par(a, b), c), m) == Result(P, c, Result(P, b, Result(P, a, m)))
  {
    hide SortLang, Result;
    ResultOfThen(P, Par(a, b), c, m);
    ResultOfPar(P, a, b, m);
  }

  /** A sort of k cells from `at` on, seen from the whole segment. */
  lemma InSegment(low: int, tmp: int, size: int, at: int, k: int, m: Mem, r: Mem)
    requires Layout(|m|, low, tmp, size) && 0 <= at && 0 <= k && at + k <= size
    requires SortDone(low + at, tmp + at, k, m, r)
    ensures |r| == |m| && SortedIn(m[low..low + size], r[low..low + size], at, at + k)
  {
    hide SortOf;
    SliceOfSlice(m, low, size, at, k);
    SliceOfSlice(r, low, size, at, k);
  }

  lemma OnlyThereTwice(low: int, tmp: int, size: int, at: int, k: int, m0: Mem, m: Mem, r: Mem)
    requires 0 <= at && 0 <= k && at + k <= size && SortDone(low + at, tmp + at, k, m, r) && OnlyThere(low, tmp, size, m0, m)
    ensures OnlyThere(low, tmp, size, m0, r)
  {
    hide SortOf;
  }

  lemma FourSorts(low: int, tmp: int, size: int, q: int, m: Mem, m1: Mem, m2: Mem, m3: Mem, m4: Mem)
    requires Layout(|m|, low, tmp, size) && 0 < q && 4 * q <= size
    requires SortDone(low, tmp, q, m, m1) && SortDone(low + q, tmp + q, q, m1, m2)
    requires SortDone(low + 2 * q, tmp + 2 * q, q, m2, m3) && SortDone(low + 3 * q, tmp + 3 * q, size - 3 * q, m3, m4)
    ensures Quartered(low, tmp, size, q, m, m4)
  {
    hide SortDone, SortedIn, QuartersSorted, Span, OnlyThere, Clear;
    InSegment(low, tmp, size, 0, q, m, m1);
    InSegment(low, tmp, size, q, q, m1, m2);
    InSegment(low, tmp, size, 2 * q, q, m2, m3);
    InSegment(low, tmp, size, 3 * q, size - 3 * q, m3, m4);
    FourSegments(m[low..low + size], m1[low..low + size], m2[low..low + size], m3[low..low + size], m4[low..low + size],
                 0, q, 2 * q, 3 * q, size);
    assert OnlyThere(low, tmp, size, m, m) by { NothingChanged(low, tmp, size, m); }
    OnlyThereTwice(low, tmp, size, 0, q, m, m, m1);
    OnlyThereTwice(low, tmp, size, q, q, m, m1, m2);
    OnlyThereTwice(low, tmp, size, 2 * q, q, m, m2, m3);
    OnlyThereTwice(low, tmp, size, 3 * q, size - 3 * q, m, m3, m4);
  }

  lemma NothingChanged(low: int, tmp: int, size: int, m: Mem)
    ensures OnlyThere(low, tmp, size, m, m)
  {
  }

  ghost predicate QuarterTasks(P: Params, n: nat, low: int, tmp: int, size: int, q: int) {
    && Sensible(P, n, Sort(low, tmp, q)) && Sensible(P, n, Sort(low + q, tmp + q, q))
    && Sensible(P, n, Sort(low + 2 * q, tmp + 2 * q, q)) && Sensible(P, n, Sort(low + 3 * q, tmp + 3 * q, size - 3 * q))
    && 0 < q && 4 * q <= size
  }

  lemma QuartersAreTasks(P: Params, n: nat, low: int, tmp: int, size: int)
    requires Allowed(P) && Layout(n, low, tmp, size) && P.quickSize <= size
    ensures QuarterTasks(P, n, low, tmp, size, size / 4)
    ensures RaceFree(SortLang(P, n), Sorts(low, tmp, size, size / 4))
  {
    hide RaceFree, SortLang;
    SortsUnder(P, n, low, tmp, size);
  }

  /** The four sorts, however deep, leave each quarter sorted. */
  lemma {:induction false} SortsSort(P: Params, low: int, tmp: int, size: int, q: int, m: Mem)
    requires Allowed(P) && Layout(|m|, low, tmp, size) && QuarterTasks(P, |m|, low, tmp, size, q)
    requires RaceFree(SortLang(P, |m|), Sorts(low, tmp, size, q))
    ensures Quartered(low, tmp, size, q, m, Result(P, Sorts(low, tmp, size, q), m))
    decreases size, 0
  {
    hide Result, SortLang, SortDone, Quartered, Depth, RaceFree, Sensible, Layout, Clear, Span;
    var a, b := Call(Sort(low, tmp, q)), Call(Sort(low + q, tmp + q, q));
    var c, d := Call(Sort(low + 2 * q, tmp + 2 * q, q)), Call(Sort(low + 3 * q, tmp + 3 * q, size - 3 * q));
    ResultOfFour(P, a, b, c, d, m);
    SortSorts(P, low, tmp, q, m);
    var m1 := Result(P, a, m);
    SortSorts(P, low + q, tmp + q, q, m1);
    var m2 := Result(P, b, m1);
    SortSorts(P, low + 2 * q, tmp + 2 * q, q, m2);
    var m3 := Result(P, c, m2);
    SortSorts(P, low + 3 * q, tmp + 3 * q, size - 3 * q, m3);
    FourSorts(low, tmp, size, q, m, m1, m2, m3, Result(P, d, m3));
  }

  lemma ViewInOrder(m: Mem, low: int, size: int, lo: int, hi: int)
    requires 0 <= low && 0 <= lo <= hi <= size && low + size <= |m| && InOrder(m[low..low + size], lo, hi)
    ensures InOrder(m, low + lo, low + hi)
  {
    forall i, j | low + lo <= i < j < low + hi ensures m[i] <= m[j] {
      assert m[i] == m[low..low + size][i - low] && m[j] == m[low..low + size][j - low];
    }
  }

  lemma QuartersAscending(low: int, tmp: int, size: int, q: int, m0: Mem, m: Mem)
    requires Quartered(low, tmp, size, q, m0, m)
    ensures Ascending(AB(low, tmp, q), m) && Ascending(CD(low, tmp, size, q), m)
  {
    hide QuartersSorted, InOrder, Span;
    QuartersInOrder(m0[low..low + size], m[low..low + size], 0, q, 2 * q, 3 * q, size);
    ViewInOrder(m, low, size, 0, q);
    ViewInOrder(m, low, size, q, 2 * q);
    ViewInOrder(m, low, size, 2 * q, 3 * q);
    ViewInOrder(m, low, size, 3 * q, size);
  }

  predicate MergesFit(P: Params, n: nat, low: int, tmp: int, size: int, q: int) {
    && Layout(n, low, tmp, size) && 0 < q && 4 * q <= size
    && Sensible(P, n, Merge(AB(low, tmp, q))) && Sensible(P, n, Merge(CD(low, tmp, size, q)))
    && Sensible(P, n, Merge(Whole(low, tmp, size, q)))
    && AB(low, tmp, q).Fit(n) && CD(low, tmp, size, q).Fit(n) && Whole(low, tmp, size, q).Fit(n)
  }

  lemma MergesDoFit(P: Params, n: nat, low: int, tmp: int, size: int)
    requires Allowed(P) && Layout(n, low, tmp, size) && P.quickSize <= size
    ensures MergesFit(P, n, low, tmp, size, size / 4)
    ensures var q := size / 4; RaceFree(SortLang(P, n), Merges(low, tmp, size, q)) && RaceFree(SortLang(P, n), Last(low, tmp, size, q))
  {
    hide RaceFree, SortLang, Depth;
    MergesUnder(P, n, low, tmp, size);
    assert Layout(n, tmp, low, size);
  }

  /** Memory after both pairs are merged into tmp. */
  ghost function Paired(P: Params, low: int, tmp: int, size: int, q: int, m: Mem): (r: Mem)
    requires MergesFit(P, |m|, low, tmp, size, q)
    ensures |r| == |m|
  {
    Splice(Splice(m, tmp, Goal(m, AB(low, tmp, q))), tmp + 2 * q, Goal(m, CD(low, tmp, size, q)))
  }

  /** Merging the first pair into tmp leaves the second pair alone. */
  lemma PairElsewhere(P: Params, low: int, tmp: int, size: int, q: int, m: Mem)
    requires MergesFit(P, |m|, low, tmp, size, q) && Ascending(CD(low, tmp, size, q), m)
    ensures var m1, cd := Splice(m, tmp, Goal(m, AB(low, tmp, q))), CD(low, tmp, size, q);
      Ascending(cd, m1) && Goal(m1, cd) == Goal(m, cd)
  {
    var s := Goal(m, AB(low, tmp, q));
    hide Ascending, Goal;
    assert SameSource(CD(low, tmp, size, q), m, Splice(m, tmp, s));
    SubRanges(CD(low, tmp, size, q), CD(low, tmp, size, q), m, Splice(m, tmp, s));
  }

  /** tmp then holds the two halves, each in order, and sorting them together sorts everything. */
  lemma HalvesInTmp(P: Params, low: int, tmp: int, size: int, q: int, m0: Mem, m: Mem)
    requires MergesFit(P, |m|, low, tmp, size, q) && Quartered(low, tmp, size, q, m0, m)
    ensures Ascending(Whole(low, tmp, size, q), Paired(P, low, tmp, size, q, m))
    ensures Goal(Paired(P, low, tmp, size, q, m), Whole(low, tmp, size, q)) == SortOf(m0[low..low + size])
  {
    hide Quartered, SortOf, Splice, Ascending, Goal;
    HalvesSorted(P, low, tmp, size, q, m0, m);
    TwoSplices(m, tmp, Goal(m, AB(low, tmp, q)), Goal(m, CD(low, tmp, size, q)));
    WholeGoal(low, tmp, size, q, Paired(P, low, tmp, size, q, m));
  }

  lemma HalvesSorted(P: Params, low: int, tmp: int, size: int, q: int, m0: Mem, m: Mem)
    requires MergesFit(P, |m|, low, tmp, size, q) && Quartered(low, tmp, size, q, m0, m)
    ensures var ab, cd := Goal(m, AB(low, tmp, q)), Goal(m, CD(low, tmp, size, q));
      Sorted(ab) && Sorted(cd) && |ab| == 2 * q && |cd| == size - 2 * q && |m0| == |m|
      && SortOf(ab + cd) == SortOf(m0[low..low + size])
  {
    hide SortOf, Sorted, Sensible, Clear, Span, Goal, Ranges.Fit;
    var s0, v := m0[low..low + size], m[low..low + size];
    PairGoals(P, low, tmp, size, q, m);
    SortOfSorts(v[0..q] + v[q..2 * q]);
    SortOfSorts(v[2 * q..3 * q] + v[3 * q..size]);
    AllElements(s0, v, 0, q, 2 * q, 3 * q, size, Goal(m, AB(low, tmp, q)), Goal(m, CD(low, tmp, size, q)));
    assert s0[0..size] == s0;
  }

  /** The two pairs' merges, in terms of the segment. */
  lemma PairGoals(P: Params, low: int, tmp: int, size: int, q: int, m: Mem)
    requires MergesFit(P, |m|, low, tmp, size, q)
    ensures var v := m[low..low + size];
      && Goal(m, AB(low, tmp, q)) == SortOf(v[0..q] + v[q..2 * q])
      && Goal(m, CD(low, tmp, size, q)) == SortOf(v[2 * q..3 * q] + v[3 * q..size])
  {
    hide SortOf, Sensible, Clear;
    SliceOfSlice(m, low, size, 0, q);
    SliceOfSlice(m, low, size, q, q);
    SliceOfSlice(m, low, size, 2 * q, q);
    SliceOfSlice(m, low, size, 3 * q, size - 3 * q);
  }

  lemma WholeGoal(low: int, tmp: int, size: int, q: int, m2: Mem)
    requires 0 <= tmp && 0 <= q && 2 * q <= size && tmp + size <= |m2| && Whole(low, tmp, size, q).Fit(|m2|)
    requires Sorted(m2[tmp..tmp + 2 * q]) && Sorted(m2[tmp + 2 * q..tmp + size])
    ensures Ascending(Whole(low, tmp, size, q), m2)
    ensures Goal(m2, Whole(low, tmp, size, q)) == SortOf(m2[tmp..tmp + 2 * q] + m2[tmp + 2 * q..tmp + size])
  {
    hide SortOf, Sorted, InOrder;
    SortedSegment(m2, tmp, tmp + 2 * q);
    SortedSegment(m2, tmp + 2 * q, tmp + size);
  }

  lemma TwoSplices(m: Mem, at: int, s: seq<int>, t: seq<int>)
    requires 0 <= at && at + |s| + |t| <= |m|
    ensures var r := Splice(Splice(m, at, s), at + |s|, t);
      |r| == |m| && r[at..at + |s|] == s && r[at + |s|..at + |s| + |t|] == t
  {
  }

  /** The three merges put the sorted whole back. */
  lemma MergesSort(P: Params, low: int, tmp: int, size: int, q: int, m0: Mem, m: Mem)
    requires Allowed(P) && MergesFit(P, |m|, low, tmp, size, q) && Quartered(low, tmp, size, q, m0, m)
    requires RaceFree(SortLang(P, |m|), Merges(low, tmp, size, q)) && RaceFree(SortLang(P, |m|), Last(low, tmp, size, q))
    ensures RaceFree(SortLang(P, |m|), Then(Merges(low, tmp, size, q), Last(low, tmp, size, q)))
    ensures Result(P, Then(Merges(low, tmp, size, q), Last(low, tmp, size, q)), m)
         == Splice(Paired(P, low, tmp, size, q, m), low, Goal(Paired(P, low, tmp, size, q, m), Whole(low, tmp, size, q)))
  {
    hide Result, SortLang, Quartered, Splice, Goal, Ascending, Depth, Sensible, Ranges.Fit, RaceFree, Clear;
    var ab, cd, g := AB(low, tmp, q), CD(low, tmp, size, q), Whole(low, tmp, size, q);
    ResultOfThree(P, Call(Merge(ab)), Call(Merge(cd)), Call(Merge(g)), m);
    QuartersAscending(low, tmp, size, q, m0, m);
    MergeMerges(P, ab, m);
    PairElsewhere(P, low, tmp, size, q, m);
    MergeMerges(P, cd, Splice(m, tmp, Goal(m, ab)));
    HalvesInTmp(P, low, tmp, size, q, m0, m);
    MergeMerges(P, g, Paired(P, low, tmp, size, q, m));
  }

  lemma LastSplice(P: Params, low: int, tmp: int, size: int, q: int, m0: Mem, m: Mem)
    requires MergesFit(P, |m|, low, tmp, size, q) && Quartered(low, tmp, size, q, m0, m)
    ensures var m2 := Paired(P, low, tmp, size, q, m);
      Splice(m2, low, Goal(m2, Whole(low, tmp, size, q)))[low..low + size] == SortOf(m0[low..low + size])
  {
    hide Quartered, Goal, Splice, SortOf, Sensible, Ranges.Fit;
    HalvesInTmp(P, low, tmp, size, q, m0, m);
    var m2 := Paired(P, low, tmp, size, q, m);
    assert |m0| == |m| by { SameSizes(low, tmp, size, q, m0, m); }
    SpliceSegment(m2, low, Goal(m2, Whole(low, tmp, size, q)));
  }

  lemma SameSizes(low: int, tmp: int, size: int, q: int, m0: Mem, m: Mem)
    requires Quartered(low, tmp, size, q, m0, m)
    ensures |m0| == |m|
  {
  }

  lemma {:induction false} SortSorts(P: Params, low: int, tmp: int, size: int, m: Mem)
    requires Allowed(P) && Sensible(P, |m|, Sort(low, tmp, size))
    ensures RaceFree(SortLang(P, |m|), Call(Sort(low, tmp, size)))
    ensures SortDone(low, tmp, size, m, Result(P, Call(Sort(low, tmp, size)), m))
    decreases size, 1
  {
    hide SortLang, Quartered, Result, RaceFree, Sorts, Merges, Last, Splice, SortOf, Goal, MergesFit, QuarterTasks, Clear;
    ResultOfCall(P, Sort(low, tmp, size), m);
    if size < P.quickSize {
      QuickDone(P, low, tmp, size, m);
    } else {
      var q := size / 4;
      QuartersAreTasks(P, |m|, low, tmp, size);
      SortsSort(P, low, tmp, size, q, m);
      var m1 := Result(P, Sorts(low, tmp, size, q), m);
      MergesDoFit(P, |m|, low, tmp, size);
      MergesSort(P, low, tmp, size, q, m, m1);
      LastSplice(P, low, tmp, size, q, m, m1);
      ResultOfThen(P, Sorts(low, tmp, size, q), Then(Merges(low, tmp, size, q), Last(low, tmp, size, q)), m);
      OnlySegments(P, low, tmp, size, m);
    }
  }

  lemma QuickDone(P: Params, low: int, tmp: int, size: int, m: Mem)
    requires Allowed(P) && Sensible(P, |m|, Sort(low, tmp, size))
    ensures var c := Call(Leaf(QuickTasks.Quick(low, low + size - 1)));
      RaceFree(SortLang(P, |m|), c) && SortDone(low, tmp, size, m, Result(P, c, m))
  {
    hide SortOf, SortLang, Result;
    LeafFinishes(P, QuickTasks.Quick(low, low + size - 1), m);
    QuickTasks.QuickIsSortOf(P.insertionSize, low, low + size - 1, m);
    SpliceSegment(m, low, SortOf(m[low..low + size]));
  }

  /** A leaf's tasks, one after the other, do what its steps do. */
  lemma {:induction false} LeafFinishes(P: Params, s: QuickTasks.Step, m: Mem)
    requires Allowed(P) && Sensible(P, |m|, Leaf(s))
    ensures RaceFree(SortLang(P, |m|), Call(Leaf(s)))
    ensures Result(P, Call(Leaf(s)), m) == QuickTasks.Finish(P.insertionSize, s, m)
    decreases QuickTasks.Depth(s)
  {
    hide SortLang, Result, QuickTasks.Run, QuickTasks.Finish, QuickTasks.Depth, QuickTasks.Sensible, QuickTasks.Clean;
    ResultOfCall(P, Leaf(s), m);
    QuickTasks.StepAndRest(P.insertionSize, s, m);
    var e := QuickTasks.Run(P.insertionSize, s, m);
    match e.next
    case Over => ResultOfDone(P, e.mem);
    case Go(c) => LeafFinishes(P, c, e.mem);
    case Both(c, d) =>
      LeafFinishes(P, c, e.mem);
      LeafFinishes(P, d, QuickTasks.Finish(P.insertionSize, c, e.mem));
      ResultOfThen(P, Call(Leaf(c)), Call(Leaf(d)), e.mem);
  }

  lemma ResultOfDone(P: Params, m: Mem)
    requires Allowed(P)
    ensures RaceFree(SortLang(P, |m|), Done) && Result(P, Done, m) == m
  {
    SortIsSound(P, |m|);
  }

  lemma OnlySegments(P: Params, low: int, tmp: int, size: int, m: Mem)
    requires Allowed(P) && Sensible(P, |m|, Sort(low, tmp, size))
    ensures RaceFree(SortLang(P, |m|), Call(Sort(low, tmp, size)))
    ensures OnlyThere(low, tmp, size, m, Result(P, Call(Sort(low, tmp, size)), m))
  {
    hide Result, Run, Depth;
    var p := Call(Sort(low, tmp, size));
    ResultKeeps(P, p, m);
    assert forall x :: Writes(SortLang(P, |m|), p, x) <==> Span(x, low, size) || Span(x, tmp, size);
  }

  // ---------------------------------------------------------------- what runs side by side, and how large the leaves are

  /** Above the sizes where they turn sequential, all four sorts can go first, after them both merges, and both halves of
      a merge. */
  lemma SpawnedSideBySide(P: Params, t: Task, m: Mem)
    requires Allowed(P) && Sensible(P, |m|, t)
    ensures t.Sort? && P.quickSize <= t.size ==>
      var p, q := Run(P, t, m).rest, t.size / 4;
      && p.Then? && p.second.Then?
      && CanBeNext(p.first, Sort(t.low, t.tmp, q)) && CanBeNext(p.first, Sort(t.low + q, t.tmp + q, q))
      && CanBeNext(p.first, Sort(t.low + 2 * q, t.tmp + 2 * q, q)) && CanBeNext(p.first, Sort(t.low + 3 * q, t.tmp + 3 * q, t.size - 3 * q))
      && CanBeNext(p.second.first, Merge(AB(t.low, t.tmp, q))) && CanBeNext(p.second.first, Merge(CD(t.low, t.tmp, t.size, q)))
    ensures t.Merge? && P.mergeSize <= t.g.h1 - t.g.l1 && P.mergeSize <= t.g.h2 - t.g.l2 ==> Run(P, t, m).rest.Call? && Run(P, t, m).rest.task.Split?
    ensures t.Split? && t.lo == t.hi ==>
      var p := Run(P, t, m).rest;
      && p.Par? && p.left.Call? && p.right.Call? && p.left.task.Merge? && p.right.task.Merge?
      && p.left.task.g.Cells() + 1 + p.right.task.g.Cells() == t.g.Cells()
      && CanBeNext(p, p.left.task) && CanBeNext(p, p.right.task)
  {
    match t
    case Sort(low, tmp, size) =>
      var q := size / 4;
      hide AB, CD, Whole;
      AnyOfFour(Sort(low, tmp, q), Sort(low + q, tmp + q, q), Sort(low + 2 * q, tmp + 2 * q, q), Sort(low + 3 * q, tmp + 3 * q, size - 3 * q));
    case _ =>
  }

  /** A quicksort is of fewer than quickSize elements, an insertion sort of at most insertionSize, and one of the ranges of a
      sequential merge has at most mergeSize. */
  predicate Grained(P: Params, t: Task) {
    match t
    case Leaf(s) => (match s
      case Quick(low, high) => high - low + 1 < P.quickSize
      case Down(low, high, _, _, _) => high - low + 1 < P.quickSize
      case Up(low, high, _, _, _) => high - low + 1 < P.quickSize
      case Insert(low, high, _) => high - low < P.insertionSize
      case Shift(low, p, _) => p - low < P.insertionSize)
    case Copying(g) => g.h1 - g.l1 < P.mergeSize || g.h2 - g.l2 < P.mergeSize
    case _ => true
  }

  function Small(P: Params): Task -> bool {
    t => Grained(P, t)
  }

  lemma LeavesGrained(P: Params, n: nat, t: Task, m: Mem)
    requires Allowed(P) && Grained(P, t)
    ensures All(SortLang(P, n).run(t, m).rest, Small(P))
  {
    hide QuickTasks.Depth, Depth, AB, CD, Whole, Lower, Upper, Med3;
    if Sensible(P, |m|, t) {
      match t
      case Leaf(s) => LeafGrained(P, s, m);
      case Sort(low, tmp, size) => SortGrained(P, low, tmp, size);
      case _ =>
    }
  }

  lemma SortGrained(P: Params, low: int, tmp: int, size: int)
    ensures var q := size / 4;
      All(Then(Sorts(low, tmp, size, q), Then(Merges(low, tmp, size, q), Last(low, tmp, size, q))), Small(P))
  {
    var q := size / 4;
    forall t: Task | t.Sort? || t.Merge? ensures All(Call(t), Small(P)) {
      assert Small(P)(t);
    }
    hide Grained, Small;
    var a, b := Call(Sort(low, tmp, q)), Call(Sort(low + q, tmp + q, q));
    var c, d := Call(Sort(low + 2 * q, tmp + 2 * q, q)), Call(Sort(low + 3 * q, tmp + 3 * q, size - 3 * q));
    assert All(Par(a, b), Small(P)) && All(Par(Par(a, b), c), Small(P)) && All(Par(Par(Par(a, b), c), d), Small(P));
    assert All(Merges(low, tmp, size, q), Small(P)) && All(Last(low, tmp, size, q), Small(P));
    hide Sorts, Merges, Last;
    assert All(Then(Merges(low, tmp, size, q), Last(low, tmp, size, q)), Small(P));
  }

  lemma LeafGrained(P: Params, s: QuickTasks.Step, m: Mem)
    requires Allowed(P) && Grained(P, Leaf(s)) && QuickTasks.Sensible(|m|, s)
    ensures All(RunLeaf(P, s, m).rest, Small(P))
  {
    hide Med3;
  }

  // ---------------------------------------------------------------- every schedule

  /** No schedule comes upon a larger sequential piece. */
  lemma LeavesAreSmall(P: Params, low: int, tmp: int, size: int, run: seq<Config<Task>>)
    requires Allowed(P) && run != [] && Schedule(SortLang(P, |run[0].mem|), run) && run[0].prog == Call(Sort(low, tmp, size))
    ensures All(run[|run| - 1].prog, Small(P))
  {
    var L := SortLang(P, |run[0].mem|);
    var these := Small(P);
    forall t: Task, m: Mem | these(t) ensures All(L.run(t, m).rest, these) {
      LeavesGrained(P, |run[0].mem|, t, m);
    }
    ScheduleKeepsAll(L, these, run);
  }

  /** However many processors interleave the tasks of cilksort, down to single turns of its loops: the array
      ends up sorted, with the same elements, and nothing but the array and its scratch space changes.  And
      it ends: every schedule can be completed, and all are equally long. */
  lemma EveryScheduleSorts(P: Params, low: int, tmp: int, size: int, run: seq<Config<Task>>)
    requires Allowed(P) && run != [] && Schedule(SortLang(P, |run[0].mem|), run)
    requires run[0].prog == Call(Sort(low, tmp, size)) && Sensible(P, |run[0].mem|, Sort(low, tmp, size))
    ensures run[|run| - 1].prog.Done? ==> SortDone(low, tmp, size, run[0].mem, run[|run| - 1].mem)
    ensures Sound(SortLang(P, |run[0].mem|)) && RaceFree(SortLang(P, |run[0].mem|), run[0].prog)
    ensures |run| - 1 <= Serial(SortLang(P, |run[0].mem|), run[0].prog, run[0].mem).steps
    ensures run[|run| - 1].prog.Done? <==> |run| - 1 == Serial(SortLang(P, |run[0].mem|), run[0].prog, run[0].mem).steps
  {
    var m := run[0].mem;
    var L := SortLang(P, |m|);
    SortIsSound(P, |m|);
    SortSorts(P, low, tmp, size, m);
    NeverLonger(L, run);
    if run[|run| - 1].prog.Done? {
      Determinate(L, run);
    }
  }
}
