/**
 mat_mul_par_rm as tasks that any number of processors may interleave: four spawns and a sync, twice.  What a task
 writes is a window of a row-major matrix, so the footprints of siblings are interleaved, row by row.
 */
module RowMajorTasks {
  import opened Morton
  import opened BlockLayout
  import opened Matrices
  import opened ZMultiply
  import opened ForkJoin
  import opened MatmulRowMajor

  /** The block size, and how wide the matrices are. */
  datatype Params = Params(power: nat, stride: nat)

  /** C += A * B: where the three n x n windows start. */
  datatype Job = Job(c: nat, a: nat, b: nat, n: nat)

  datatype Task =
    | Multiply(job: Job)
    | Rows(job: Job, i: nat)             // a base case, from row i on
    | Row(job: Job, i: nat, k: nat)      // row i of it, from column k on

  /** Cell y is in the n x n window at `at`. */
  predicate In(P: Params, at: nat, n: nat, y: int) {
    0 < P.stride && MatmulRowMajor.InPart(y, at, P.stride, 0, 0, n)
  }

  predicate Inside(P: Params, size: nat, at: nat, n: nat) {
    n <= P.stride && (n > 0 ==> at + (n - 1) * P.stride + n <= size)
  }

  /** The windows are in memory, and no cell of the output is a cell of an operand. */
  ghost predicate Fits(P: Params, size: nat, j: Job) {
    && Size(P.power, j.n) && 0 < j.n && Inside(P, size, j.c, j.n) && Inside(P, size, j.a, j.n) && Inside(P, size, j.b, j.n)
    && forall y :: In(P, j.c, j.n, y) ==> !In(P, j.a, j.n, y) && !In(P, j.b, j.n, y)
  }

  ghost predicate Sensible(P: Params, size: nat, t: Task) {
    && Fits(P, size, t.job)
    && (!t.Multiply? ==> t.job.n == Pow2(P.power) && t.i <= t.job.n)
    && (t.Row? ==> t.i < t.job.n && t.k <= t.job.n)
  }

  predicate Reading(P: Params, t: Task, x: int) {
    In(P, t.job.a, t.job.n, x) || In(P, t.job.b, t.job.n, x)
  }

  predicate Writing(P: Params, t: Task, x: int) {
    In(P, t.job.c, t.job.n, x)
  }

  // ---------------------------------------------------------------- what the tasks do

  /** The k-th of the two jobs for part (r, s) of the output. */
  function SubJob(P: Params, j: Job, r: nat, s: nat, k: nat): Job
    requires r <= 1 && s <= 1 && k <= 1
  {
    Job(PartAt(j.c, j.n, P.stride, r, s), PartAt(j.a, j.n, P.stride, r, k), PartAt(j.b, j.n, P.stride, k, s), j.n / 2)
  }

  function Part(P: Params, j: Job, r: nat, s: nat, k: nat): Proc<Task>
    requires r <= 1 && s <= 1 && k <= 1
  {
    Call(Multiply(SubJob(P, j, r, s, k)))
  }

  function FourWays(a: Proc<Task>, b: Proc<Task>, c: Proc<Task>, d: Proc<Task>): Proc<Task> {
    Par(Par(Par(a, b), c), d)
  }

  /** Four spawns, then a sync. */
  function SyncRound(P: Params, j: Job, k: nat): Proc<Task>
    requires k <= 1
  {
    FourWays(Part(P, j, 0, 0, k), Part(P, j, 0, 1, k), Part(P, j, 1, 0, k), Part(P, j, 1, 1, k))
  }

  function Body(P: Params, j: Job): Proc<Task> {
    Then(SyncRound(P, j, 0), SyncRound(P, j, 1))
  }

  lemma ViewsFit(P: Params, m: Mem, j: Job)
    requires Fits(P, |m|, j)
    ensures View(m, j.a, P.stride).Fits(j.n) && View(m, j.b, P.stride).Fits(j.n) && View(m, j.c, P.stride).Fits(j.n)
  {
  }

  /** Row i times column k. */
  ghost function Dot(P: Params, j: Job, m: Mem, i: nat, k: nat): int
    requires Fits(P, |m|, j) && i < j.n && k < j.n
  {
    ViewsFit(P, m, j);
    Terms(View(m, j.a, P.stride), View(m, j.b, P.stride), j.n, i, k, 0, j.n)
  }

  function Place(P: Params, j: Job, i: nat, k: nat): nat {
    j.c + i * P.stride + k
  }

  lemma PlaceIsIn(P: Params, size: nat, at: nat, n: nat, i: nat, k: nat)
    requires Inside(P, size, at, n) && i < n && k < n
    ensures var y := at + i * P.stride + k;
      In(P, at, n, y) && y < size && Quot(y - at, P.stride) == i && Rem(y - at, P.stride) == k
  {
    hide Quot, Rem;
    QuotIs(i * P.stride + k, i, k, P.stride);
    assert i * P.stride <= (n - 1) * P.stride;
  }

  ghost function RunRow(P: Params, j: Job, i: nat, k: nat, m: Mem): Outcome<Task>
    requires Sensible(P, |m|, Row(j, i, k))
  {
    if k < j.n then
      PlaceIsIn(P, |m|, j.c, j.n, i, k);
      var at := Place(P, j, i, k);
      Outcome(Call(Row(j, i, k + 1)), m[at := m[at] + Dot(P, j, m, i, k)])
    else Outcome(Done, m)
  }

  ghost function Run(P: Params, t: Task, m: Mem): Outcome<Task>
    requires Sensible(P, |m|, t)
  {
    match t
    case Multiply(j) => if j.n == Pow2(P.power) then Outcome(Call(Rows(j, 0)), m) else Outcome(Body(P, j), m)
    case Rows(j, i) => if i < j.n then Outcome(Then(Call(Row(j, i, 0)), Call(Rows(j, i + 1))), m) else Outcome(Done, m)
    case Row(j, i, k) => RunRow(P, j, i, k, m)
  }

  function Depth(t: Task): nat {
    match t
    case Multiply(j) => 2 * j.n + 3
    case Rows(j, i) => if i <= j.n then 2 * j.n - i + 2 else 0
    case Row(j, _, k) => if k <= j.n then j.n - k else 0
  }

  ghost function RowLang(P: Params, size: nat): Lang<Task> {
    Lang(size, (t: Task, m: Mem) => if Sensible(P, |m|, t) then Run(P, t, m) else Outcome(Done, m),
         (t: Task, x: int) => Reading(P, t, x), (t: Task, x: int) => Writing(P, t, x), Depth, (t: Task) => Sensible(P, size, t))
  }

  // ---------------------------------------------------------------- no conflicts

  /** The cells of a part of a window. */
  lemma PartCells(P: Params, at: nat, n: nat, r: nat, s: nat, y: int)
    requires n % 2 == 0 && 0 < n <= P.stride && r <= 1 && s <= 1
    ensures In(P, PartAt(at, n, P.stride, r, s), n / 2, y) <==> MatmulRowMajor.InPart(y, at, P.stride, r * (n / 2), s * (n / 2), n / 2)
    ensures In(P, PartAt(at, n, P.stride, r, s), n / 2, y) ==> In(P, at, n, y)
  {
    hide Quot, Rem, PartAt;
    PartFits(n, r);
    PartFits(n, s);
    PartIsSub(View([], at, P.stride), n, r, s);
    SamePlace(y, at, P.stride, n, r * (n / 2), s * (n / 2), n / 2);
  }

  lemma PartInside(P: Params, size: nat, at: nat, n: nat, r: nat, s: nat)
    requires Inside(P, size, at, n) && n % 2 == 0 && 0 < n && r <= 1 && s <= 1
    ensures Inside(P, size, PartAt(at, n, P.stride, r, s), n / 2)
  {
    hide PartAt;
    PartIsSub(View([], at, P.stride), n, r, s);
    PartFits(n, r);
    PartFits(n, s);
    RowsInside(r * (n / 2), n / 2 - 1, n - 1, P.stride);
  }

  ghost predicate Child(P: Params, size: nat, c: Task, t: Task) {
    && Sensible(P, size, c) && Depth(c) < Depth(t)
    && forall x :: (Writing(P, c, x) ==> Writing(P, t, x)) && (Reading(P, c, x) ==> Reading(P, t, x))
  }

  lemma ChildUnder(P: Params, size: nat, c: Task, t: Task)
    requires Child(P, size, c, t)
    ensures Under(RowLang(P, size), Call(c), t)
  {
    hide Sensible, Depth, Reading, Writing, Run;
  }

  lemma SubJobFits(P: Params, size: nat, j: Job, r: nat, s: nat, k: nat)
    requires Fits(P, size, j) && Large(P.power, j.n) && r <= 1 && s <= 1 && k <= 1
    ensures Fits(P, size, SubJob(P, j, r, s, k)) && Child(P, size, Multiply(SubJob(P, j, r, s, k)), Multiply(j))
  {
    hide Size, Pow2, PartAt, Inside;
    LargeHalf(P.power, j.n);
    WideEnough(P, size, j);
    PartInside(P, size, j.c, j.n, r, s);
    PartInside(P, size, j.a, j.n, r, k);
    PartInside(P, size, j.b, j.n, k, s);
    forall y ensures var c := SubJob(P, j, r, s, k);
      && (In(P, c.c, c.n, y) ==> In(P, j.c, j.n, y)) && (In(P, c.a, c.n, y) ==> In(P, j.a, j.n, y)) && (In(P, c.b, c.n, y) ==> In(P, j.b, j.n, y)) {
      PartCells(P, j.c, j.n, r, s, y);
      PartCells(P, j.a, j.n, r, k, y);
      PartCells(P, j.b, j.n, k, s, y);
    }
    hide In;
  }

  lemma WideEnough(P: Params, size: nat, j: Job)
    requires Fits(P, size, j)
    ensures 0 < j.n <= P.stride
  {
  }

  /** Jobs on different parts of the output: neither writes what the other touches. */
  lemma SubJobsApart(P: Params, size: nat, j: Job, r: nat, s: nat, r': nat, s': nat, k: nat)
    requires Fits(P, size, j) && Large(P.power, j.n) && r <= 1 && s <= 1 && k <= 1 && r' <= 1 && s' <= 1 && (r != r' || s != s')
    ensures Apart(RowLang(P, size), Part(P, j, r, s, k), Part(P, j, r', s', k))
  {
    var t, t' := Multiply(SubJob(P, j, r, s, k)), Multiply(SubJob(P, j, r', s', k));
    SubJobFits(P, size, j, r, s, k);
    SubJobFits(P, size, j, r', s', k);
    forall x ensures !(Writing(P, t, x) && (Reading(P, t', x) || Writing(P, t', x))) && !(Writing(P, t', x) && (Reading(P, t, x) || Writing(P, t, x))) {
      OutputsApart(P, size, j, r, s, r', s', k, x);
      OperandsApart(P, size, j, x);
    }
    hide Reading, Writing, Sensible, Depth, Run;
  }

  lemma OutputsApart(P: Params, size: nat, j: Job, r: nat, s: nat, r': nat, s': nat, k: nat, x: int)
    requires Fits(P, size, j) && Large(P.power, j.n) && r <= 1 && s <= 1 && k <= 1 && r' <= 1 && s' <= 1 && (r != r' || s != s')
    ensures !(Writing(P, Multiply(SubJob(P, j, r, s, k)), x) && Writing(P, Multiply(SubJob(P, j, r', s', k)), x))
  {
    hide Size, Pow2, PartAt, Quot, Rem, In;
    LargeHalf(P.power, j.n);
    WideEnough(P, size, j);
    PartCells(P, j.c, j.n, r, s, x);
    PartCells(P, j.c, j.n, r', s', x);
  }

  lemma OperandsApart(P: Params, size: nat, j: Job, x: int)
    requires Fits(P, size, j)
    ensures !(Writing(P, Multiply(j), x) && Reading(P, Multiply(j), x))
  {
  }

  lemma PartUnder(P: Params, size: nat, j: Job, r: nat, s: nat, k: nat)
    requires Fits(P, size, j) && Large(P.power, j.n) && r <= 1 && s <= 1 && k <= 1
    ensures Under(RowLang(P, size), Part(P, j, r, s, k), Multiply(j))
  {
    hide RowLang, Under;
    SubJobFits(P, size, j, r, s, k);
    ChildUnder(P, size, Multiply(SubJob(P, j, r, s, k)), Multiply(j));
  }

  lemma RoundUnder(P: Params, size: nat, j: Job, k: nat)
    requires Fits(P, size, j) && Large(P.power, j.n) && k <= 1
    ensures Under(RowLang(P, size), SyncRound(P, j, k), Multiply(j))
  {
    hide RowLang, Under, Apart, Part, Fits, Large;
    var L, t := RowLang(P, size), Multiply(j);
    var a, b, c, d := Part(P, j, 0, 0, k), Part(P, j, 0, 1, k), Part(P, j, 1, 0, k), Part(P, j, 1, 1, k);
    PartUnder(P, size, j, 0, 0, k);
    PartUnder(P, size, j, 0, 1, k);
    PartUnder(P, size, j, 1, 0, k);
    PartUnder(P, size, j, 1, 1, k);
    SubJobsApart(P, size, j, 0, 0, 0, 1, k);
    SubJobsApart(P, size, j, 0, 0, 1, 0, k);
    SubJobsApart(P, size, j, 0, 0, 1, 1, k);
    SubJobsApart(P, size, j, 0, 1, 1, 0, k);
    SubJobsApart(P, size, j, 0, 1, 1, 1, k);
    SubJobsApart(P, size, j, 1, 0, 1, 1, k);
    ParUnder(L, a, b, t);
    ParApart(L, a, b, c);
    ParUnder(L, Par(a, b), c, t);
    ParApart(L, a, b, d);
    ParApart(L, Par(a, b), c, d);
    ParUnder(L, Par(Par(a, b), c), d, t);
  }

  lemma BodyUnder(P: Params, size: nat, j: Job)
    requires Fits(P, size, j) && Large(P.power, j.n)
    ensures Under(RowLang(P, size), Body(P, j), Multiply(j))
  {
    hide RowLang, Under, SyncRound, Fits, Large;
    RoundUnder(P, size, j, 0);
    RoundUnder(P, size, j, 1);
    ThenUnder(RowLang(P, size), SyncRound(P, j, 0), SyncRound(P, j, 1), Multiply(j));
  }

  lemma RowsUnder(P: Params, size: nat, j: Job, i: nat)
    requires Sensible(P, size, Rows(j, i)) && i < j.n
    ensures Under(RowLang(P, size), Then(Call(Row(j, i, 0)), Call(Rows(j, i + 1))), Rows(j, i))
  {
    hide RowLang, Under, In;
    var t := Rows(j, i);
    assert Child(P, size, Row(j, i, 0), t) && Child(P, size, Rows(j, i + 1), t);
    ChildUnder(P, size, Row(j, i, 0), t);
    ChildUnder(P, size, Rows(j, i + 1), t);
    ThenUnder(RowLang(P, size), Call(Row(j, i, 0)), Call(Rows(j, i + 1)), t);
  }

  lemma RowFramed(P: Params, t: Task, m: Mem)
    requires t.Row? && Sensible(P, |m|, t)
    ensures Framed(RowLang(P, |m|), t, m)
  {
    hide In, Dot;
    var j, i, k := t.job, t.i, t.k;
    if k < j.n {
      assert Child(P, |m|, Row(j, i, k + 1), t);
      ChildUnder(P, |m|, Row(j, i, k + 1), t);
      PlaceIsIn(P, |m|, j.c, j.n, i, k);
      assert Writing(P, t, Place(P, j, i, k));
    }
  }

  lemma RunFramed(P: Params, t: Task, m: Mem)
    requires Sensible(P, |m|, t)
    ensures Framed(RowLang(P, |m|), t, m)
  {
    hide Body, Reading, Writing, Depth, Fits, Under;
    match t
    case Multiply(j) =>
      if j.n == Pow2(P.power) {
        BaseUnder(P, |m|, j);
      } else {
        SizeOf(P, |m|, j);
        AboveABlock(P.power, j.n);
        BodyUnder(P, |m|, j);
      }
    case Rows(j, i) =>
      if i < j.n {
        RowsUnder(P, |m|, j, i);
      } else {
        NothingUnder(P, |m|, t);
      }
    case Row(_, _, _) => RowFramed(P, t, m);
  }

  lemma SizeOf(P: Params, size: nat, j: Job)
    requires Fits(P, size, j)
    ensures Size(P.power, j.n)
  {
  }

  lemma BaseUnder(P: Params, size: nat, j: Job)
    requires Fits(P, size, j) && j.n == Pow2(P.power)
    ensures Under(RowLang(P, size), Call(Rows(j, 0)), Multiply(j))
  {
    hide RowLang, Under, In;
    assert Child(P, size, Rows(j, 0), Multiply(j));
    ChildUnder(P, size, Rows(j, 0), Multiply(j));
  }

  lemma NothingUnder(P: Params, size: nat, t: Task)
    ensures Under(RowLang(P, size), Done, t)
  {
  }

  /** m and m' are the same where t reads or writes. */
  ghost predicate Alike(P: Params, t: Task, m: Mem, m': Mem) {
    |m| == |m'| && forall x :: 0 <= x < |m| && (Reading(P, t, x) || Writing(P, t, x)) ==> m[x] == m'[x]
  }

  lemma AlikeIsAgree(P: Params, t: Task, m: Mem, m': Mem)
    ensures Agree(RowLang(P, |m|), Call(t), m, m') <==> Alike(P, t, m, m')
  {
    hide Reading, Writing, Sensible, Depth, Run;
    var L := RowLang(P, |m|);
    assert forall x :: Touches(L, Call(t), x) <==> Reading(P, t, x) || Writing(P, t, x);
  }

  /** m and m' are the same in the window. */
  ghost predicate SameWindow(P: Params, at: nat, n: nat, m: Mem, m': Mem) {
    |m| == |m'| && forall y :: 0 <= y < |m| && In(P, at, n, y) ==> m[y] == m'[y]
  }

  lemma {:induction false} TermsSame(P: Params, j: Job, m: Mem, m': Mem, i: nat, k: nat, lo: nat, hi: nat)
    requires Fits(P, |m|, j) && SameWindow(P, j.a, j.n, m, m') && SameWindow(P, j.b, j.n, m, m') && i < j.n && k < j.n && lo <= hi <= j.n
    ensures View(m, j.a, P.stride).Fits(j.n) && View(m, j.b, P.stride).Fits(j.n)
    ensures View(m', j.a, P.stride).Fits(j.n) && View(m', j.b, P.stride).Fits(j.n)
    ensures Terms(View(m, j.a, P.stride), View(m, j.b, P.stride), j.n, i, k, lo, hi)
         == Terms(View(m', j.a, P.stride), View(m', j.b, P.stride), j.n, i, k, lo, hi)
    decreases hi
  {
    assert |m| == |m'|;
    ViewsFit(P, m, j);
    ViewsFit(P, m', j);
    hide Fits, SameWindow, View.Fits, Terms;
    var va, vb, va', vb' := View(m, j.a, P.stride), View(m, j.b, P.stride), View(m', j.a, P.stride), View(m', j.b, P.stride);
    if lo < hi {
      TermsSame(P, j, m, m', i, k, lo, hi - 1);
      var x, y := FactorsSame(P, j, m, m', i, k, hi - 1);
      LastTerm(va, vb, j.n, i, k, lo, hi, x, y);
      LastTerm(va', vb', j.n, i, k, lo, hi, x, y);
    } else {
      NoTerms(va, vb, j.n, i, k, lo);
      NoTerms(va', vb', j.n, i, k, lo);
    }
  }

  lemma LastTerm(a: View, b: View, n: nat, i: nat, k: nat, lo: nat, hi: nat, x: int, y: int)
    requires a.Fits(n) && b.Fits(n) && i < n && k < n && lo < hi <= n
    requires a.at + i * a.stride + (hi - 1) < |a.s| && x == a.Cell(i, hi - 1)
    requires b.at + (hi - 1) * b.stride + k < |b.s| && y == b.Cell(hi - 1, k)
    ensures Terms(a, b, n, i, k, lo, hi) == Terms(a, b, n, i, k, lo, hi - 1) + x * y
  {
  }

  lemma NoTerms(a: View, b: View, n: nat, i: nat, k: nat, lo: nat)
    requires a.Fits(n) && b.Fits(n) && i < n && k < n && lo <= n
    ensures Terms(a, b, n, i, k, lo, lo) == 0
  {
  }

  lemma FactorsSame(P: Params, j: Job, m: Mem, m': Mem, i: nat, k: nat, l: nat) returns (x: int, y: int)
    requires Fits(P, |m|, j) && SameWindow(P, j.a, j.n, m, m') && SameWindow(P, j.b, j.n, m, m') && i < j.n && k < j.n && l < j.n
    ensures j.a + i * P.stride + l < |m| && x == m[j.a + i * P.stride + l] == m'[j.a + i * P.stride + l]
    ensures j.b + l * P.stride + k < |m| && y == m[j.b + l * P.stride + k] == m'[j.b + l * P.stride + k]
  {
    x := CellSame(P, j.a, j.n, m, m', i, l);
    y := CellSame(P, j.b, j.n, m, m', l, k);
  }

  lemma CellSame(P: Params, at: nat, n: nat, m: Mem, m': Mem, i: nat, k: nat) returns (x: int)
    requires Inside(P, |m|, at, n) && SameWindow(P, at, n, m, m') && i < n && k < n
    ensures at + i * P.stride + k < |m| && x == m[at + i * P.stride + k] == m'[at + i * P.stride + k]
  {
    hide In, Inside;
    PlaceIsIn(P, |m|, at, n, i, k);
    x := m[at + i * P.stride + k];
  }

  lemma RunLocal(P: Params, t: Task, m: Mem, m': Mem)
    requires Sensible(P, |m|, t) && Alike(P, t, m, m')
    ensures |m'| == |m| && Run(P, t, m').rest == Run(P, t, m).rest && Alike(P, t, Run(P, t, m).mem, Run(P, t, m').mem)
  {
    hide In, Body, Terms;
    if t.Row? && t.k < t.job.n {
      var j := t.job;
      assert SameWindow(P, j.a, j.n, m, m') && SameWindow(P, j.b, j.n, m, m');
      TermsSame(P, j, m, m', t.i, t.k, 0, j.n);
      PlaceIsIn(P, |m|, j.c, j.n, t.i, t.k);
    }
  }

  lemma TaskLocal(P: Params, t: Task, m: Mem, m': Mem)
    requires Sensible(P, |m|, t) && |m| == |m'|
    ensures Local(RowLang(P, |m|), t, m, m')
  {
    var L := RowLang(P, |m|);
    if Agree(L, Call(t), m, m') {
      AlikeIsAgree(P, t, m, m');
      RunLocal(P, t, m, m');
      RunFramed(P, t, m);
      AlikeIsAgree(P, t, Run(P, t, m).mem, Run(P, t, m').mem);
      hide Run, Sensible, Agree, Alike;
    }
  }

  /** The tasks write only the window of their output, read only the windows of their operands and their output, and
      never run beside a task they conflict with. */
  lemma RowMajorIsSound(P: Params, size: nat)
    ensures Sound(RowLang(P, size))
  {
    var L := RowLang(P, size);
    forall t: Task, m: Mem | L.ok(t) && |m| == L.size ensures Framed(L, t, m) {
      RunFramed(P, t, m);
    }
    forall t: Task, m: Mem, m': Mem | L.ok(t) && |m| == |m'| == L.size ensures Local(L, t, m, m') {
      TaskLocal(P, t, m, m');
    }
  }

  // ---------------------------------------------------------------- what they compute

  ghost function Result(P: Params, p: Proc<Task>, m: Mem): (r: Mem)
    requires RaceFree(RowLang(P, |m|), p)
    ensures |r| == |m|
  {
    RowMajorIsSound(P, |m|);
    Serial(RowLang(P, |m|), p, m).mem
  }

  lemma ResultOfCall(P: Params, t: Task, m: Mem)
    requires Sensible(P, |m|, t)
    ensures |Run(P, t, m).mem| == |m| && RaceFree(RowLang(P, |m|), Run(P, t, m).rest)
    ensures RaceFree(RowLang(P, |m|), Call(t))
    ensures Result(P, Call(t), m) == Result(P, Run(P, t, m).rest, Run(P, t, m).mem)
  {
    RowMajorIsSound(P, |m|);
    RunFramed(P, t, m);
    hide Run, Sensible, Reading, Writing, Depth;
  }

  lemma ResultOfThen(P: Params, p: Proc<Task>, q: Proc<Task>, m: Mem)
    requires RaceFree(RowLang(P, |m|), Then(p, q))
    ensures Result(P, Then(p, q), m) == Result(P, q, Result(P, p, m))
  {
    RowMajorIsSound(P, |m|);
    hide RowLang;
  }

  lemma ResultOfPar(P: Params, p: Proc<Task>, q: Proc<Task>, m: Mem)
    requires RaceFree(RowLang(P, |m|), Par(p, q))
    ensures Result(P, Par(p, q), m) == Result(P, q, Result(P, p, m))
  {
    RowMajorIsSound(P, |m|);
    hide RowLang;
  }

  lemma ResultOfFour(P: Params, a: Proc<Task>, b: Proc<Task>, c: Proc<Task>, d: Proc<Task>, m: Mem)
    requires RaceFree(RowLang(P, |m|), FourWays(a, b, c, d))
    ensures var L := RowLang(P, |m|); RaceFree(L, a) && RaceFree(L, b) && RaceFree(L, c) && RaceFree(L, d)
    ensures Result(P, FourWays(a, b, c, d), m) == Result(P, d, Result(P, c, Result(P, b, Result(P, a, m))))
  {
    hide RowLang, Result;
    ResultOfPar(P, Par(Par(a, b), c), d, m);
    ResultOfPar(P, Par(a, b), c, m);
    ResultOfPar(P, a, b, m);
  }

  lemma ResultOfDone(P: Params, m: Mem)
    ensures RaceFree(RowLang(P, |m|), Done) && Result(P, Done, m) == m
  {
    RowMajorIsSound(P, |m|);
  }

  /** The base case's loops have filled the rows before i, and row i up to column k, onto what was there. */
  ghost predicate Filled(P: Params, j: Job, now: Mem, was: Mem, i: nat, k: nat)
    requires Fits(P, |was|, j)
  {
    ViewsFit(P, was, j);
    SoFar(now, was, View(was, j.a, P.stride), View(was, j.b, P.stride), j.n, j.c, P.stride, true, i, k)
  }

  /** The window of the output gained the product, and everything else is as before. */
  ghost predicate Multiplied(P: Params, j: Job, now: Mem, was: Mem)
    requires Fits(P, |was|, j)
  {
    ViewsFit(P, was, j);
    Gained(now, was, View(was, j.a, P.stride), View(was, j.b, P.stride), j.n, j.c, P.stride, 0, 0, 0, j.n)
  }

  lemma OperandsUnfilled(P: Params, j: Job, now: Mem, was: Mem, i: nat, k: nat)
    requires Fits(P, |was|, j) && Filled(P, j, now, was, i, k)
    ensures SameWindow(P, j.a, j.n, now, was) && SameWindow(P, j.b, j.n, now, was)
  {
    hide Terms, Quot, Rem;
    forall y | 0 <= y < |was| && !In(P, j.c, j.n, y) ensures now[y] == was[y] {
      assert !Visited(y, j.c, P.stride, j.n, i, k);
    }
  }

  lemma FillOne(P: Params, j: Job, now: Mem, was: Mem, i: nat, k: nat)
    requires Fits(P, |was|, j) && |now| == |was| && i < j.n && k < j.n && Filled(P, j, now, was, i, k)
    ensures Place(P, j, i, k) < |now|
    ensures Filled(P, j, now[Place(P, j, i, k) := now[Place(P, j, i, k)] + Dot(P, j, now, i, k)], was, i, k + 1)
  {
    hide Terms, Quot, Rem, SoFar, In, Size;
    ViewsFit(P, was, j);
    OperandsUnfilled(P, j, now, was, i, k);
    TermsSame(P, j, now, was, i, k, 0, j.n);
    PlaceIsIn(P, |now|, j.c, j.n, i, k);
    VisitOne(now, was, View(was, j.a, P.stride), View(was, j.b, P.stride), j.n, j.c, P.stride, true, i, k,
             Place(P, j, i, k), now[Place(P, j, i, k)] + Dot(P, j, now, i, k));
  }

  lemma {:induction false} RowDone(P: Params, j: Job, i: nat, k: nat, m: Mem, was: Mem)
    requires |m| == |was| && Sensible(P, |m|, Row(j, i, k)) && Filled(P, j, m, was, i, k)
    ensures RaceFree(RowLang(P, |m|), Call(Row(j, i, k))) && Filled(P, j, Result(P, Call(Row(j, i, k)), m), was, i, j.n)
    decreases j.n - k
  {
    hide Fits, Filled, Result, RowLang, RaceFree, Dot;
    ResultOfCall(P, Row(j, i, k), m);
    if k < j.n {
      FillOne(P, j, m, was, i, k);
      RowDone(P, j, i, k + 1, RunRow(P, j, i, k, m).mem, was);
    } else {
      ResultOfDone(P, m);
    }
  }

  lemma {:induction false} RowsDone(P: Params, j: Job, i: nat, m: Mem, was: Mem)
    requires |m| == |was| && Sensible(P, |m|, Rows(j, i)) && Filled(P, j, m, was, i, 0)
    ensures RaceFree(RowLang(P, |m|), Call(Rows(j, i))) && Filled(P, j, Result(P, Call(Rows(j, i)), m), was, j.n, 0)
    decreases j.n - i
  {
    hide Fits, Filled, Result, RowLang;
    ResultOfCall(P, Rows(j, i), m);
    if i < j.n {
      RowDone(P, j, i, 0, m, was);
      var m1 := Result(P, Call(Row(j, i, 0)), m);
      NextRow(P, j, m1, was, i);
      RowsDone(P, j, i + 1, m1, was);
      ResultOfThen(P, Call(Row(j, i, 0)), Call(Rows(j, i + 1)), m);
    } else {
      ResultOfDone(P, m);
    }
  }

  lemma NextRow(P: Params, j: Job, now: Mem, was: Mem, i: nat)
    requires Fits(P, |was|, j) && i < j.n && Filled(P, j, now, was, i, j.n)
    ensures Filled(P, j, now, was, i + 1, 0)
  {
    hide SoFar, Size, In;
    ViewsFit(P, was, j);
    VisitRow(now, was, View(was, j.a, P.stride), View(was, j.b, P.stride), j.n, j.c, P.stride, true, i);
  }

  lemma NothingFilled(P: Params, j: Job, m: Mem)
    requires Fits(P, |m|, j)
    ensures Filled(P, j, m, m, 0, 0)
  {
    hide Terms, Quot, Rem;
    ViewsFit(P, m, j);
    assert forall y :: 0 <= y < |m| ==> !Visited(y, j.c, P.stride, j.n, 0, 0);
  }

  lemma AllFilled(P: Params, j: Job, now: Mem, was: Mem)
    requires Fits(P, |was|, j) && Filled(P, j, now, was, j.n, 0)
    ensures Multiplied(P, j, now, was)
  {
    hide SoFar, Gained, Size, In;
    ViewsFit(P, was, j);
    LoopsGain(now, was, View(was, j.a, P.stride), View(was, j.b, P.stride), j.n, j.c, P.stride);
  }

  /** Any job, however deep, adds its product and does nothing else. */
  lemma {:induction false} JobDone(P: Params, j: Job, m: Mem)
    requires Fits(P, |m|, j)
    ensures RaceFree(RowLang(P, |m|), Call(Multiply(j))) && Multiplied(P, j, Result(P, Call(Multiply(j)), m), m)
    decreases j.n, 2
  {
    hide RowLang, Result, Multiplied, Filled, Fits, Pow2, Body;
    ResultOfCall(P, Multiply(j), m);
    if j.n == Pow2(P.power) {
      NothingFilled(P, j, m);
      RowsDone(P, j, 0, m, m);
      AllFilled(P, j, Result(P, Call(Rows(j, 0)), m), m);
    } else {
      SizeOf(P, |m|, j);
      AboveABlock(P.power, j.n);
      BodyDone(P, j, m);
    }
  }

  /** The operands hold what they held in w. */
  ghost predicate Holding(P: Params, j: Job, m: Mem, w: Mem) {
    Fits(P, |m|, j) && SameWindow(P, j.a, j.n, m, w) && SameWindow(P, j.b, j.n, m, w)
  }

  /** One of the eight parts, in terms of the operands as they were in w. */
  ghost predicate PartAdded(P: Params, j: Job, now: Mem, was: Mem, w: Mem, r: nat, s: nat, k: nat)
    requires Fits(P, |w|, j) && r <= 1 && s <= 1 && k <= 1
  {
    ViewsFit(P, w, j);
    PartGained(now, was, View(w, j.a, P.stride), View(w, j.b, P.stride), j.n, j.c, P.stride, r, s, k)
  }

  lemma {:induction false} PartDone(P: Params, j: Job, m: Mem, w: Mem, r: nat, s: nat, k: nat)
    requires Fits(P, |w|, j) && Holding(P, j, m, w) && Large(P.power, j.n) && r <= 1 && s <= 1 && k <= 1
    ensures RaceFree(RowLang(P, |m|), Part(P, j, r, s, k))
    ensures var m' := Result(P, Part(P, j, r, s, k), m); PartAdded(P, j, m', m, w, r, s, k) && Holding(P, j, m', w)
    decreases j.n, 0
  {
    hide RowLang, Result, Multiplied, Fits, Large, SubJob, PartAdded, SameWindow;
    LargeHalf(P.power, j.n);
    SubJobFits(P, |m|, j, r, s, k);
    assert SubJob(P, j, r, s, k).n == j.n / 2 by { HalfSize(P, j, r, s, k); }
    JobDone(P, SubJob(P, j, r, s, k), m);
    SubIsPart(P, j, Result(P, Part(P, j, r, s, k), m), m, w, r, s, k);
  }

  lemma HalfSize(P: Params, j: Job, r: nat, s: nat, k: nat)
    requires r <= 1 && s <= 1 && k <= 1
    ensures SubJob(P, j, r, s, k).n == j.n / 2
  {
  }

  /** What a job on a part does, seen from the whole window. */
  lemma SubIsPart(P: Params, j: Job, now: Mem, was: Mem, w: Mem, r: nat, s: nat, k: nat)
    requires Fits(P, |w|, j) && Holding(P, j, was, w) && Large(P.power, j.n) && r <= 1 && s <= 1 && k <= 1
    requires Fits(P, |was|, SubJob(P, j, r, s, k)) && Multiplied(P, SubJob(P, j, r, s, k), now, was)
    ensures PartAdded(P, j, now, was, w, r, s, k) && Holding(P, j, now, w)
  {
    hide Gained, Size, Pow2, PartAt, In, View.Fits, Inside;
    LargeHalf(P.power, j.n);
    WideEnough(P, |w|, j);
    ViewsFit(P, was, j);
    ViewsFit(P, was, SubJob(P, j, r, s, k));
    var va, vb, h := View(was, j.a, P.stride), View(was, j.b, P.stride), j.n / 2;
    PartFits(j.n, r);
    PartFits(j.n, s);
    PartFits(j.n, k);
    PartIsSub(va, j.n, r, k);
    PartIsSub(vb, j.n, k, s);
    PartIsSub(View(was, j.c, P.stride), j.n, r, s);
    SubGained(now, was, va, vb, j.n, j.c, PartAt(j.c, j.n, P.stride, r, s), P.stride, r * h, s * h, k * h, h);
    GainedSame(P, j, now, was, w, r * h, s * h, k * h, h);
    GainedElsewhere(P, j, now, was, w, r * h, s * h, k * h, h);
  }

  lemma GainedSame(P: Params, j: Job, now: Mem, was: Mem, w: Mem, r: nat, s: nat, k: nat, h: nat)
    requires Fits(P, |w|, j) && Holding(P, j, was, w) && r + h <= j.n && s + h <= j.n && k + h <= j.n
    requires View(was, j.a, P.stride).Fits(j.n) && View(was, j.b, P.stride).Fits(j.n)
    requires Gained(now, was, View(was, j.a, P.stride), View(was, j.b, P.stride), j.n, j.c, P.stride, r, s, k, h)
    ensures View(w, j.a, P.stride).Fits(j.n) && View(w, j.b, P.stride).Fits(j.n)
    ensures Gained(now, was, View(w, j.a, P.stride), View(w, j.b, P.stride), j.n, j.c, P.stride, r, s, k, h)
  {
    hide Terms, Quot, Rem, Size, In, SameWindow;
    ViewsFit(P, w, j);
    forall y | 0 <= y < |was| ensures Gain(View(was, j.a, P.stride), View(was, j.b, P.stride), j.n, j.c, P.stride, r, s, k, h, y)
                                   == Gain(View(w, j.a, P.stride), View(w, j.b, P.stride), j.n, j.c, P.stride, r, s, k, h, y) {
      if MatmulRowMajor.InPart(y, j.c, P.stride, r, s, h) {
        TermsSame(P, j, was, w, Quot(y - j.c, P.stride), Rem(y - j.c, P.stride), k, k + h);
      }
    }
  }

  lemma GainedElsewhere(P: Params, j: Job, now: Mem, was: Mem, w: Mem, r: nat, s: nat, k: nat, h: nat)
    requires Fits(P, |w|, j) && Holding(P, j, was, w) && r + h <= j.n && s + h <= j.n && k + h <= j.n
    requires View(was, j.a, P.stride).Fits(j.n) && View(was, j.b, P.stride).Fits(j.n)
    requires Gained(now, was, View(was, j.a, P.stride), View(was, j.b, P.stride), j.n, j.c, P.stride, r, s, k, h)
    ensures Holding(P, j, now, w)
  {
    hide Terms, Quot, Rem, Size;
    forall y | 0 <= y < |was| && !In(P, j.c, j.n, y) ensures now[y] == was[y] {
      assert !MatmulRowMajor.InPart(y, j.c, P.stride, r, s, h);
    }
  }

  lemma {:induction false} RoundDone(P: Params, j: Job, m: Mem, w: Mem, k: nat) returns (m1: Mem, m2: Mem, m3: Mem)
    requires Fits(P, |w|, j) && Holding(P, j, m, w) && Large(P.power, j.n) && k <= 1
    ensures RaceFree(RowLang(P, |m|), SyncRound(P, j, k))
    ensures var m4 := Result(P, SyncRound(P, j, k), m);
      && PartAdded(P, j, m1, m, w, 0, 0, k) && PartAdded(P, j, m2, m1, w, 0, 1, k)
      && PartAdded(P, j, m3, m2, w, 1, 0, k) && PartAdded(P, j, m4, m3, w, 1, 1, k) && Holding(P, j, m4, w)
    decreases j.n, 1
  {
    assert Fits(P, |m|, j);
    assert RaceFree(RowLang(P, |m|), SyncRound(P, j, k)) by { RoundUnder(P, |m|, j, k); }
    hide RowLang, Result, Holding, Fits, Large, Part, PartAdded, RaceFree;
    ResultOfFour(P, Part(P, j, 0, 0, k), Part(P, j, 0, 1, k), Part(P, j, 1, 0, k), Part(P, j, 1, 1, k), m);
    PartDone(P, j, m, w, 0, 0, k);
    m1 := Result(P, Part(P, j, 0, 0, k), m);
    PartDone(P, j, m1, w, 0, 1, k);
    m2 := Result(P, Part(P, j, 0, 1, k), m1);
    PartDone(P, j, m2, w, 1, 0, k);
    m3 := Result(P, Part(P, j, 1, 0, k), m2);
    PartDone(P, j, m3, w, 1, 1, k);
  }

  lemma {:induction false} BodyDone(P: Params, j: Job, m: Mem)
    requires Fits(P, |m|, j) && Large(P.power, j.n)
    ensures RaceFree(RowLang(P, |m|), Body(P, j)) && Multiplied(P, j, Result(P, Body(P, j), m), m)
    decreases j.n, 2, 0
  {
    assert Holding(P, j, m, m);
    hide RowLang, Result, Holding, Fits, Large, SyncRound, PartAdded, RaceFree, Multiplied;
    assert RaceFree(RowLang(P, |m|), Body(P, j)) by { BodyIsRaceFree(P, j, m); }
    var m1, m2, m3 := RoundDone(P, j, m, m, 0);
    var m4 := Result(P, SyncRound(P, j, 0), m);
    var m5, m6, m7 := RoundDone(P, j, m4, m, 1);
    ResultOfThen(P, SyncRound(P, j, 0), SyncRound(P, j, 1), m);
    EightAdded(P, j, m, m1, m2, m3, m4, m5, m6, m7, Result(P, SyncRound(P, j, 1), m4));
  }

  lemma BodyIsRaceFree(P: Params, j: Job, m: Mem)
    requires Fits(P, |m|, j) && Large(P.power, j.n)
    ensures RaceFree(RowLang(P, |m|), Body(P, j))
  {
    BodyUnder(P, |m|, j);
  }

  lemma EightAdded(P: Params, j: Job, m: Mem, m1: Mem, m2: Mem, m3: Mem, m4: Mem, m5: Mem, m6: Mem, m7: Mem, m8: Mem)
    requires Fits(P, |m|, j) && Large(P.power, j.n)
    requires PartAdded(P, j, m1, m, m, 0, 0, 0) && PartAdded(P, j, m2, m1, m, 0, 1, 0)
    requires PartAdded(P, j, m3, m2, m, 1, 0, 0) && PartAdded(P, j, m4, m3, m, 1, 1, 0)
    requires PartAdded(P, j, m5, m4, m, 0, 0, 1) && PartAdded(P, j, m6, m5, m, 0, 1, 1)
    requires PartAdded(P, j, m7, m6, m, 1, 0, 1) && PartAdded(P, j, m8, m7, m, 1, 1, 1)
    ensures Multiplied(P, j, m8, m)
  {
    hide PartGained, Gained, Size, In, Pow2;
    LargeHalf(P.power, j.n);
    ViewsFit(P, m, j);
    EightGains([m, m1, m2, m3, m4, m5, m6, m7, m8], View(m, j.a, P.stride), View(m, j.b, P.stride), j.n, j.c, P.stride);
  }

  /** Above the block size all four products of a round can go first. */
  lemma SpawnedSideBySide(P: Params, j: Job, m: Mem, r: nat, s: nat, k: nat)
    requires Fits(P, |m|, j) && j.n != Pow2(P.power) && r <= 1 && s <= 1 && k <= 1
    ensures var p := Run(P, Multiply(j), m).rest;
      p.Then? && CanBeNext(if k == 0 then p.first else p.second, Multiply(SubJob(P, j, r, s, k)))
  {
    hide SubJob;
    var sub := (r: nat, s: nat) requires r <= 1 && s <= 1 => Multiply(SubJob(P, j, r, s, k));
    AnyOfFour(sub(0, 0), sub(0, 1), sub(1, 0), sub(1, 1));
  }

  // ---------------------------------------------------------------- every schedule

  /** However many processors interleave the tasks: exactly the cells of C's window gain exactly the product, and every
      schedule can be completed. */
  lemma EveryScheduleMultiplies(P: Params, j: Job, run: seq<Config<Task>>)
    requires run != [] && Schedule(RowLang(P, |run[0].mem|), run)
    requires run[0].prog == Call(Multiply(j)) && Fits(P, |run[0].mem|, j)
    ensures run[|run| - 1].prog.Done? ==> Multiplied(P, j, run[|run| - 1].mem, run[0].mem)
    ensures Sound(RowLang(P, |run[0].mem|)) && RaceFree(RowLang(P, |run[0].mem|), run[0].prog)
    ensures |run| - 1 <= Serial(RowLang(P, |run[0].mem|), run[0].prog, run[0].mem).steps
    ensures run[|run| - 1].prog.Done? <==> |run| - 1 == Serial(RowLang(P, |run[0].mem|), run[0].prog, run[0].mem).steps
  {
    var m := run[0].mem;
    var L := RowLang(P, |m|);
    RowMajorIsSound(P, |m|);
    JobDone(P, j, m);
    hide RowLang, Multiplied, Fits;
    NeverLonger(L, run);
    if run[|run| - 1].prog.Done? {
      Determinate(L, run);
    }
  }
}
