/**
 mm_dac_z and mat_mul_par as tasks that any number of processors may interleave, in both versions: two
 rounds of spawns with a sync after each, and futures, where the second product of a quadrant only waits
 for the first product of the same quadrant.  One memory holds all matrices.
 */
module MatrixTasks {
  import opened Morton
  import opened BlockLayout
  import opened Matrices
  import opened ZMultiply
  import opened ForkJoin

  /** The block size, and which version. */
  datatype Params = Params(power: nat, futures: bool)

  /** C := A * B, or C := C + A * B: where the three n x n matrices start. */
  datatype Job = Job(c: nat, a: nat, b: nat, n: nat, add: bool)

  datatype Task =
    | Multiply(job: Job)
    | Cells(job: Job, x: nat)      // one block, from cell x on

  predicate Disjoint(p: nat, q: nat, len: nat) {
    p + len <= q || q + len <= p
  }

  predicate Span(x: int, lo: nat, len: nat) {
    lo <= x < lo + len
  }

  /** The matrices are in memory, and the output overlaps neither operand. */
  ghost predicate Fits(P: Params, size: nat, j: Job) {
    && Size(P.power, j.n) && j.n <= MAX_N
    && j.c + j.n * j.n <= size && j.a + j.n * j.n <= size && j.b + j.n * j.n <= size
    && Disjoint(j.c, j.a, j.n * j.n) && Disjoint(j.c, j.b, j.n * j.n)
  }

  ghost predicate Sensible(P: Params, size: nat, t: Task) {
    Fits(P, size, t.job) && (t.Cells? ==> t.job.n == Pow2(P.power) && t.x <= t.job.n * t.job.n)
  }

  predicate Reading(t: Task, x: int) {
    Span(x, t.job.a, t.job.n * t.job.n) || Span(x, t.job.b, t.job.n * t.job.n)
  }

  predicate Writing(t: Task, x: int) {
    Span(x, t.job.c, t.job.n * t.job.n)
  }

  // ---------------------------------------------------------------- what the tasks do

  /** The k-th of the two jobs for quadrant (r, s). */
  function SubJob(P: Params, j: Job, r: nat, s: nat, k: nat): Job
    requires j.n <= MAX_N && r <= 1 && s <= 1 && k <= 1
  {
    Job(j.c + Corner(P.power, j.n, r, s), j.a + Corner(P.power, j.n, r, k), j.b + Corner(P.power, j.n, k, s), j.n / 2, j.add || k == 1)
  }

  function Part(P: Params, j: Job, r: nat, s: nat, k: nat): Proc<Task>
    requires j.n <= MAX_N && r <= 1 && s <= 1 && k <= 1
  {
    Call(Multiply(SubJob(P, j, r, s, k)))
  }

  function FourWays(a: Proc<Task>, b: Proc<Task>, c: Proc<Task>, d: Proc<Task>): Proc<Task> {
    Par(Par(Par(a, b), c), d)
  }

  /** All four k-th products, then a sync. */
  function SyncRound(P: Params, j: Job, k: nat): Proc<Task>
    requires j.n <= MAX_N && k <= 1
  {
    FourWays(Part(P, j, 0, 0, k), Part(P, j, 0, 1, k), Part(P, j, 1, 0, k), Part(P, j, 1, 1, k))
  }

  /** One quadrant's two products, ordered by the future of the first. */
  function Chain(P: Params, j: Job, r: nat, s: nat): Proc<Task>
    requires j.n <= MAX_N && r <= 1 && s <= 1
  {
    Then(Part(P, j, r, s, 0), Part(P, j, r, s, 1))
  }

  function Body(P: Params, j: Job): Proc<Task>
    requires j.n <= MAX_N
  {
    if P.futures then FourWays(Chain(P, j, 0, 0), Chain(P, j, 0, 1), Chain(P, j, 1, 0), Chain(P, j, 1, 1))
    else Then(SyncRound(P, j, 0), SyncRound(P, j, 1))
  }

  ghost function CellValue(P: Params, j: Job, m: Mem, x: nat): int
    requires Fits(P, |m|, j) && x < j.n * j.n
  {
    (if j.add then m[j.c + x] else 0)
    + Product(P.power, j.n, Window(m, j.a, j.n * j.n), Window(m, j.b, j.n * j.n))[x]
  }

  ghost function Run(P: Params, t: Task, m: Mem): Outcome<Task>
    requires Sensible(P, |m|, t)
  {
    match t
    case Multiply(j) => if j.n == Pow2(P.power) then Outcome(Call(Cells(j, 0)), m) else Outcome(Body(P, j), m)
    case Cells(j, x) =>
      if x < j.n * j.n then Outcome(Call(Cells(j, x + 1)), m[j.c + x := CellValue(P, j, m, x)]) else Outcome(Done, m)
  }

  function Depth(t: Task): nat {
    if t.Multiply? then t.job.n * t.job.n + 1 else if t.x <= t.job.n * t.job.n then t.job.n * t.job.n - t.x else 0
  }

  ghost function MatrixLang(P: Params, size: nat): Lang<Task> {
    Lang(size, (t: Task, m: Mem) => if Sensible(P, |m|, t) then Run(P, t, m) else Outcome(Done, m),
         Reading, Writing, Depth, (t: Task) => Sensible(P, size, t))
  }

  // ---------------------------------------------------------------- no conflicts

  ghost predicate Child(P: Params, size: nat, c: Task, t: Task) {
    && Sensible(P, size, c) && Depth(c) < Depth(t)
    && forall x :: (Writing(c, x) ==> Writing(t, x)) && (Reading(c, x) ==> Reading(t, x))
  }

  lemma ChildUnder(P: Params, size: nat, c: Task, t: Task)
    requires Child(P, size, c, t)
    ensures Under(MatrixLang(P, size), Call(c), t)
  {
    hide Sensible, Depth, Reading, Writing, Run;
  }

  lemma SubJobFits(P: Params, size: nat, j: Job, r: nat, s: nat, k: nat)
    requires Fits(P, size, j) && Large(P.power, j.n) && r <= 1 && s <= 1 && k <= 1
    ensures Child(P, size, Multiply(SubJob(P, j, r, s, k)), Multiply(j))
  {
    hide Size, Corner, Pow2;
    LargeHalf(P.power, j.n);
    CornerIsQuarter(P.power, j.n, r, s);
    CornerIsQuarter(P.power, j.n, r, k);
    CornerIsQuarter(P.power, j.n, k, s);
    QuarterInside(j.n, r, s);
    QuarterInside(j.n, r, k);
    QuarterInside(j.n, k, s);
    SomeCells(j.n / 2);
  }

  lemma SomeCells(n: nat)
    requires n > 0
    ensures n * n > 0
  {
  }

  /** Jobs on different quadrants: neither writes what the other touches. */
  lemma SubJobsApart(P: Params, size: nat, j: Job, r: nat, s: nat, k: nat, r': nat, s': nat, k': nat)
    requires Fits(P, size, j) && Large(P.power, j.n) && r <= 1 && s <= 1 && k <= 1 && r' <= 1 && s' <= 1 && k' <= 1
    requires r != r' || s != s'
    ensures Apart(MatrixLang(P, size), Part(P, j, r, s, k), Part(P, j, r', s', k'))
  {
    var t, t' := Multiply(SubJob(P, j, r, s, k)), Multiply(SubJob(P, j, r', s', k'));
    SubJobFits(P, size, j, r, s, k);
    SubJobFits(P, size, j, r', s', k');
    forall x ensures !(Writing(t, x) && (Reading(t', x) || Writing(t', x))) && !(Writing(t', x) && (Reading(t, x) || Writing(t, x))) {
      OutputsApart(P, j, r, s, k, r', s', k', x);
      OperandsApart(P, size, j, x);
    }
    hide Reading, Writing, Sensible, Depth, Run;
  }

  lemma OutputsApart(P: Params, j: Job, r: nat, s: nat, k: nat, r': nat, s': nat, k': nat, x: int)
    requires Large(P.power, j.n) && j.n <= MAX_N && r <= 1 && s <= 1 && k <= 1 && r' <= 1 && s' <= 1 && k' <= 1 && (r != r' || s != s')
    ensures !(Writing(Multiply(SubJob(P, j, r, s, k)), x) && Writing(Multiply(SubJob(P, j, r', s', k')), x))
  {
    hide Size, Corner, Pow2;
    LargeHalf(P.power, j.n);
    CornerIsQuarter(P.power, j.n, r, s);
    CornerIsQuarter(P.power, j.n, r', s');
    OtherQuarter(j.n / 2 * (j.n / 2), 2 * r + s, 2 * r' + s');
  }

  lemma OperandsApart(P: Params, size: nat, j: Job, x: int)
    requires Fits(P, size, j)
    ensures !(Writing(Multiply(j), x) && Reading(Multiply(j), x))
  {
  }

  lemma PartUnder(P: Params, size: nat, j: Job, r: nat, s: nat, k: nat)
    requires Fits(P, size, j) && Large(P.power, j.n) && r <= 1 && s <= 1 && k <= 1
    ensures Under(MatrixLang(P, size), Part(P, j, r, s, k), Multiply(j))
  {
    hide MatrixLang, Under;
    SubJobFits(P, size, j, r, s, k);
    ChildUnder(P, size, Multiply(SubJob(P, j, r, s, k)), Multiply(j));
  }

  lemma FourUnder(P: Params, size: nat, j: Job, a: Proc<Task>, b: Proc<Task>, c: Proc<Task>, d: Proc<Task>)
    requires var L, t := MatrixLang(P, size), Multiply(j); Under(L, a, t) && Under(L, b, t) && Under(L, c, t) && Under(L, d, t)
    requires var L := MatrixLang(P, size);
      Apart(L, a, b) && Apart(L, a, c) && Apart(L, a, d) && Apart(L, b, c) && Apart(L, b, d) && Apart(L, c, d)
    ensures Under(MatrixLang(P, size), FourWays(a, b, c, d), Multiply(j))
  {
    hide MatrixLang, Under, Apart;
    var L, t := MatrixLang(P, size), Multiply(j);
    ParUnder(L, a, b, t);
    ParApart(L, a, b, c);
    ParUnder(L, Par(a, b), c, t);
    ParApart(L, a, b, d);
    ParApart(L, Par(a, b), c, d);
    ParUnder(L, Par(Par(a, b), c), d, t);
  }

  lemma RoundUnder(P: Params, size: nat, j: Job, k: nat)
    requires Fits(P, size, j) && Large(P.power, j.n) && k <= 1
    ensures Under(MatrixLang(P, size), SyncRound(P, j, k), Multiply(j))
  {
    assert j.n <= MAX_N;
    hide MatrixLang, Under, Apart, Part, Fits, Large;
    PartUnder(P, size, j, 0, 0, k);
    PartUnder(P, size, j, 0, 1, k);
    PartUnder(P, size, j, 1, 0, k);
    PartUnder(P, size, j, 1, 1, k);
    SubJobsApart(P, size, j, 0, 0, k, 0, 1, k);
    SubJobsApart(P, size, j, 0, 0, k, 1, 0, k);
    SubJobsApart(P, size, j, 0, 0, k, 1, 1, k);
    SubJobsApart(P, size, j, 0, 1, k, 1, 0, k);
    SubJobsApart(P, size, j, 0, 1, k, 1, 1, k);
    SubJobsApart(P, size, j, 1, 0, k, 1, 1, k);
    FourUnder(P, size, j, Part(P, j, 0, 0, k), Part(P, j, 0, 1, k), Part(P, j, 1, 0, k), Part(P, j, 1, 1, k));
  }

  lemma ChainUnder(P: Params, size: nat, j: Job, r: nat, s: nat)
    requires Fits(P, size, j) && Large(P.power, j.n) && r <= 1 && s <= 1
    ensures Under(MatrixLang(P, size), Chain(P, j, r, s), Multiply(j))
  {
    hide MatrixLang, Under, Part;
    PartUnder(P, size, j, r, s, 0);
    PartUnder(P, size, j, r, s, 1);
    ThenUnder(MatrixLang(P, size), Part(P, j, r, s, 0), Part(P, j, r, s, 1), Multiply(j));
  }

  lemma ThenApart<T>(L: Lang<T>, a: Proc<T>, b: Proc<T>, c: Proc<T>, d: Proc<T>)
    requires Apart(L, a, c) && Apart(L, a, d) && Apart(L, b, c) && Apart(L, b, d)
    ensures Apart(L, Then(a, b), Then(c, d))
  {
    var p, q := Then(a, b), Then(c, d);
    forall x ensures !(Writes(L, p, x) && Touches(L, q, x)) && !(Writes(L, q, x) && Touches(L, p, x)) {
    }
  }

  /** The futures order everything that touches one quadrant; different quadrants do not conflict. */
  lemma ChainsApart(P: Params, size: nat, j: Job, r: nat, s: nat, r': nat, s': nat)
    requires Fits(P, size, j) && Large(P.power, j.n) && r <= 1 && s <= 1 && r' <= 1 && s' <= 1 && (r != r' || s != s')
    ensures Apart(MatrixLang(P, size), Chain(P, j, r, s), Chain(P, j, r', s'))
  {
    hide MatrixLang, Apart, Part;
    SubJobsApart(P, size, j, r, s, 0, r', s', 0);
    SubJobsApart(P, size, j, r, s, 0, r', s', 1);
    SubJobsApart(P, size, j, r, s, 1, r', s', 0);
    SubJobsApart(P, size, j, r, s, 1, r', s', 1);
    ThenApart(MatrixLang(P, size), Part(P, j, r, s, 0), Part(P, j, r, s, 1), Part(P, j, r', s', 0), Part(P, j, r', s', 1));
  }

  lemma BodyUnder(P: Params, size: nat, j: Job)
    requires Fits(P, size, j) && Large(P.power, j.n)
    ensures Under(MatrixLang(P, size), Body(P, j), Multiply(j))
  {
    assert j.n <= MAX_N;
    hide MatrixLang, Under, Apart, Chain, SyncRound, Fits, Large;
    if P.futures {
      ChainUnder(P, size, j, 0, 0);
      ChainUnder(P, size, j, 0, 1);
      ChainUnder(P, size, j, 1, 0);
      ChainUnder(P, size, j, 1, 1);
      ChainsApart(P, size, j, 0, 0, 0, 1);
      ChainsApart(P, size, j, 0, 0, 1, 0);
      ChainsApart(P, size, j, 0, 0, 1, 1);
      ChainsApart(P, size, j, 0, 1, 1, 0);
      ChainsApart(P, size, j, 0, 1, 1, 1);
      ChainsApart(P, size, j, 1, 0, 1, 1);
      FourUnder(P, size, j, Chain(P, j, 0, 0), Chain(P, j, 0, 1), Chain(P, j, 1, 0), Chain(P, j, 1, 1));
    } else {
      RoundUnder(P, size, j, 0);
      RoundUnder(P, size, j, 1);
      ThenUnder(MatrixLang(P, size), SyncRound(P, j, 0), SyncRound(P, j, 1), Multiply(j));
    }
  }

  lemma RunFramed(P: Params, t: Task, m: Mem)
    requires Sensible(P, |m|, t)
    ensures Framed(MatrixLang(P, |m|), t, m)
  {
    match t
    case Multiply(j) =>
      if j.n == Pow2(P.power) {
        assert Child(P, |m|, Cells(j, 0), t);
        ChildUnder(P, |m|, Cells(j, 0), t);
      } else {
        AboveABlock(P.power, j.n);
        BodyUnder(P, |m|, j);
      }
      hide Body, Sensible, Reading, Writing, Depth;
    case Cells(j, x) =>
      if x < j.n * j.n {
        assert Child(P, |m|, Cells(j, x + 1), t);
        ChildUnder(P, |m|, Cells(j, x + 1), t);
        assert Writing(t, j.c + x);
      }
      hide CellValue;
  }

  /** m and m' are the same where t reads or writes. */
  ghost predicate Alike(t: Task, m: Mem, m': Mem) {
    |m| == |m'| && forall x :: 0 <= x < |m| && (Reading(t, x) || Writing(t, x)) ==> m[x] == m'[x]
  }

  lemma AlikeIsAgree(P: Params, t: Task, m: Mem, m': Mem)
    ensures Agree(MatrixLang(P, |m|), Call(t), m, m') <==> Alike(t, m, m')
  {
    hide Reading, Writing, Sensible, Depth, Run;
    var L := MatrixLang(P, |m|);
    assert forall x :: Touches(L, Call(t), x) <==> Reading(t, x) || Writing(t, x);
  }

  lemma SameOperands(P: Params, t: Task, m: Mem, m': Mem)
    requires Sensible(P, |m|, t) && Alike(t, m, m')
    ensures var j := t.job; Window(m, j.a, j.n * j.n) == Window(m', j.a, j.n * j.n) && Window(m, j.b, j.n * j.n) == Window(m', j.b, j.n * j.n)
  {
    var j := t.job;
    forall y | 0 <= y < |m| && Reading(t, y) ensures m[y] == m'[y] {
    }
    SameSlice(m, m', j.a, j.n * j.n);
    SameSlice(m, m', j.b, j.n * j.n);
  }

  lemma SameSlice(m: Mem, m': Mem, at: nat, len: nat)
    requires |m| == |m'| && at + len <= |m| && forall y :: at <= y < at + len ==> m[y] == m'[y]
    ensures Window(m, at, len) == Window(m', at, len)
  {
  }

  lemma RunLocal(P: Params, t: Task, m: Mem, m': Mem)
    requires Sensible(P, |m|, t) && Alike(t, m, m')
    ensures Run(P, t, m').rest == Run(P, t, m).rest && Alike(t, Run(P, t, m).mem, Run(P, t, m').mem)
  {
    SameOperands(P, t, m, m');
    if t.Cells? && t.x < t.job.n * t.job.n {
      assert Writing(t, t.job.c + t.x);
      assert CellValue(P, t.job, m, t.x) == CellValue(P, t.job, m', t.x);
    }
    hide CellValue, Body, Product, Window;
  }

  lemma TaskLocal(P: Params, t: Task, m: Mem, m': Mem)
    requires Sensible(P, |m|, t) && |m| == |m'|
    ensures Local(MatrixLang(P, |m|), t, m, m')
  {
    var L := MatrixLang(P, |m|);
    if Agree(L, Call(t), m, m') {
      AlikeIsAgree(P, t, m, m');
      RunLocal(P, t, m, m');
      RunFramed(P, t, m);
      AlikeIsAgree(P, t, Run(P, t, m).mem, Run(P, t, m').mem);
      hide Run, Sensible, Agree, Alike;
    }
  }

  /** Both versions' tasks write only their output, read only their operands and their output, and never
      run beside a task they conflict with. */
  lemma MatrixIsSound(P: Params, size: nat)
    ensures Sound(MatrixLang(P, size))
  {
    var L := MatrixLang(P, size);
    forall t: Task, m: Mem | L.ok(t) && |m| == L.size ensures Framed(L, t, m) {
      RunFramed(P, t, m);
    }
    forall t: Task, m: Mem, m': Mem | L.ok(t) && |m| == |m'| == L.size ensures Local(L, t, m, m') {
      TaskLocal(P, t, m, m');
    }
  }

  // ---------------------------------------------------------------- what they compute

  ghost function Result(P: Params, p: Proc<Task>, m: Mem): (r: Mem)
    requires RaceFree(MatrixLang(P, |m|), p)
    ensures |r| == |m|
  {
    MatrixIsSound(P, |m|);
    Serial(MatrixLang(P, |m|), p, m).mem
  }

  lemma ResultOfCall(P: Params, t: Task, m: Mem)
    requires Sensible(P, |m|, t)
    ensures |Run(P, t, m).mem| == |m| && RaceFree(MatrixLang(P, |m|), Run(P, t, m).rest)
    ensures RaceFree(MatrixLang(P, |m|), Call(t))
    ensures Result(P, Call(t), m) == Result(P, Run(P, t, m).rest, Run(P, t, m).mem)
  {
    MatrixIsSound(P, |m|);
    RunFramed(P, t, m);
    hide Run, Sensible, Reading, Writing, Depth;
  }

  lemma ResultOfThen(P: Params, p: Proc<Task>, q: Proc<Task>, m: Mem)
    requires RaceFree(MatrixLang(P, |m|), Then(p, q))
    ensures Result(P, Then(p, q), m) == Result(P, q, Result(P, p, m))
  {
    MatrixIsSound(P, |m|);
    hide MatrixLang;
  }

  lemma ResultOfPar(P: Params, p: Proc<Task>, q: Proc<Task>, m: Mem)
    requires RaceFree(MatrixLang(P, |m|), Par(p, q))
    ensures Result(P, Par(p, q), m) == Result(P, q, Result(P, p, m))
  {
    MatrixIsSound(P, |m|);
    hide MatrixLang;
  }

  lemma ResultOfFour(P: Params, a: Proc<Task>, b: Proc<Task>, c: Proc<Task>, d: Proc<Task>, m: Mem)
    requires RaceFree(MatrixLang(P, |m|), FourWays(a, b, c, d))
    ensures var L := MatrixLang(P, |m|); RaceFree(L, a) && RaceFree(L, b) && RaceFree(L, c) && RaceFree(L, d)
    ensures Result(P, FourWays(a, b, c, d), m) == Result(P, d, Result(P, c, Result(P, b, Result(P, a, m))))
  {
    hide MatrixLang, Result;
    ResultOfPar(P, Par(Par(a, b), c), d, m);
    ResultOfPar(P, Par(a, b), c, m);
    ResultOfPar(P, a, b, m);
  }

  /** What a job must put into its output. */
  ghost function Goal(P: Params, j: Job, m: Mem): (t: seq<int>)
    requires Fits(P, |m|, j)
    ensures |t| == j.n * j.n
  {
    Target(j.add, Window(m, j.c, j.n * j.n), Product(P.power, j.n, Window(m, j.a, j.n * j.n), Window(m, j.b, j.n * j.n)))
  }

  /** The first x cells of the output are done. */
  ghost predicate Filled(now: Mem, was: Mem, c: nat, t: seq<int>, x: nat) {
    && |now| == |was| && x <= |t| && c + |t| <= |was|
    && forall y :: 0 <= y < |was| ==> now[y] == if c <= y < c + x then t[y - c] else was[y]
  }

  /** The next cell is computed from what was there before. */
  lemma NextCell(P: Params, j: Job, x: nat, was: Mem, m: Mem)
    requires Fits(P, |was|, j) && Filled(m, was, j.c, Goal(P, j, was), x) && x < j.n * j.n
    ensures CellValue(P, j, m, x) == Goal(P, j, was)[x]
    ensures Filled(m[j.c + x := CellValue(P, j, m, x)], was, j.c, Goal(P, j, was), x + 1)
  {
    hide Product, Size;
    SameSlice(m, was, j.a, j.n * j.n);
    SameSlice(m, was, j.b, j.n * j.n);
  }

  lemma {:induction false} CellsFill(P: Params, j: Job, x: nat, was: Mem, m: Mem)
    requires |m| == |was| && Sensible(P, |m|, Cells(j, x)) && Filled(m, was, j.c, Goal(P, j, was), x)
    ensures RaceFree(MatrixLang(P, |m|), Call(Cells(j, x)))
    ensures Wrote(Result(P, Call(Cells(j, x)), m), was, j.c, Goal(P, j, was))
    decreases j.n * j.n - x
  {
    hide MatrixLang, Result, Goal, CellValue, Filled;
    ResultOfCall(P, Cells(j, x), m);
    if x < j.n * j.n {
      NextCell(P, j, x, was, m);
      CellsFill(P, j, x + 1, was, m[j.c + x := CellValue(P, j, m, x)]);
    } else {
      AllFilled(P, j, was, m);
    }
  }

  lemma AllFilled(P: Params, j: Job, was: Mem, m: Mem)
    requires Fits(P, |was|, j) && Filled(m, was, j.c, Goal(P, j, was), j.n * j.n)
    ensures RaceFree(MatrixLang(P, |m|), Done) && Wrote(Result(P, Done, m), was, j.c, Goal(P, j, was))
  {
    hide Goal;
    MatrixIsSound(P, |m|);
  }

  /** Any job, however deep, does what it must and nothing else. */
  lemma {:induction false} JobDone(P: Params, j: Job, m: Mem)
    requires Fits(P, |m|, j)
    ensures RaceFree(MatrixLang(P, |m|), Call(Multiply(j)))
    ensures Wrote(Result(P, Call(Multiply(j)), m), m, j.c, Goal(P, j, m))
    decreases j.n, 4
  {
    ResultOfCall(P, Multiply(j), m);
    hide MatrixLang, Result, Goal, Size, Pow2, Body, Wrote;
    if j.n == Pow2(P.power) {
      NothingFilled(P, j, m);
      CellsFill(P, j, 0, m, m);
    } else {
      AboveABlock(P.power, j.n);
      if P.futures {
        FuturesDone(P, j, m);
      } else {
        RoundsDone(P, j, m);
      }
    }
  }

  lemma NothingFilled(P: Params, j: Job, m: Mem)
    requires Fits(P, |m|, j)
    ensures Filled(m, m, j.c, Goal(P, j, m), 0)
  {
  }

  /** The operands are elsewhere, so a job's writes leave them alone. */
  lemma OperandsStay(P: Params, j: Job, now: Mem, was: Mem, at: nat, s: seq<int>)
    requires Fits(P, |was|, j) && Wrote(now, was, at, s) && j.c <= at && at + |s| <= j.c + j.n * j.n
    ensures |now| == |was|
    ensures Window(now, j.a, j.n * j.n) == Window(was, j.a, j.n * j.n) && Window(now, j.b, j.n * j.n) == Window(was, j.b, j.n * j.n)
  {
    hide Size;
    SameSlice(now, was, j.a, j.n * j.n);
    SameSlice(now, was, j.b, j.n * j.n);
  }

  /** The job fits, and sa and sb are its operands. */
  ghost predicate Holding(P: Params, j: Job, m: Mem, sa: seq<int>, sb: seq<int>) {
    Fits(P, |m|, j) && sa == Window(m, j.a, j.n * j.n) && sb == Window(m, j.b, j.n * j.n)
  }

  /** What one part does, seen from the whole job. */
  lemma {:induction false} PartDone(P: Params, j: Job, m: Mem, r: nat, s: nat, k: nat, sa: seq<int>, sb: seq<int>)
    requires Holding(P, j, m, sa, sb) && Large(P.power, j.n) && r <= 1 && s <= 1 && k <= 1
    ensures RaceFree(MatrixLang(P, |m|), Part(P, j, r, s, k))
    ensures var m' := Result(P, Part(P, j, r, s, k), m);
      StepWrote(m', m, j.c, P.power, j.n, sa, sb, r, s, k, j.add || k == 1) && Holding(P, j, m', sa, sb)
    decreases j.n, 0
  {
    hide MatrixLang, Result, Size, Pow2, Wrote, Corner, Product, Target, Quad, Window;
    LargeHalf(P.power, j.n);
    SubJobFits(P, |m|, j, r, s, k);
    JobDone(P, SubJob(P, j, r, s, k), m);
    CornerIsQuarter(P.power, j.n, r, s);
    CornerIsQuarter(P.power, j.n, r, k);
    CornerIsQuarter(P.power, j.n, k, s);
    WindowQuad(m, j.c, j.n, r, s);
    WindowQuad(m, j.a, j.n, r, k);
    WindowQuad(m, j.b, j.n, k, s);
    QuarterInside(j.n, r, s);
    OperandsStay(P, j, Result(P, Part(P, j, r, s, k), m), m, j.c + Corner(P.power, j.n, r, s),
                 StepTarget(m, j.c, P.power, j.n, sa, sb, r, s, k, j.add || k == 1));
  }

  /** Four parts between syncs. */
  lemma {:induction false} RoundDone(P: Params, j: Job, m: Mem, k: nat, sa: seq<int>, sb: seq<int>)
    requires Holding(P, j, m, sa, sb) && Large(P.power, j.n) && k <= 1
    ensures RaceFree(MatrixLang(P, |m|), SyncRound(P, j, k))
    ensures var m' := Result(P, SyncRound(P, j, k), m);
      && Wrote(m', m, j.c, RoundTarget(P.power, j.n, Window(m, j.c, j.n * j.n), sa, sb, k, j.add || k == 1))
      && Holding(P, j, m', sa, sb)
    decreases j.n, 1
  {
    assert j.c + j.n * j.n <= |m| && j.n <= MAX_N && |sa| == |sb| == j.n * j.n;
    assert RaceFree(MatrixLang(P, |m|), SyncRound(P, j, k)) by { RoundUnder(P, |m|, j, k); }
    hide MatrixLang, Result, Holding, Large, Part, StepWrote, RoundTarget, Wrote, RaceFree, Window;
    var add := j.add || k == 1;
    ResultOfFour(P, Part(P, j, 0, 0, k), Part(P, j, 0, 1, k), Part(P, j, 1, 0, k), Part(P, j, 1, 1, k), m);
    PartDone(P, j, m, 0, 0, k, sa, sb);
    var m1 := Result(P, Part(P, j, 0, 0, k), m);
    PartDone(P, j, m1, 0, 1, k, sa, sb);
    var m2 := Result(P, Part(P, j, 0, 1, k), m1);
    PartDone(P, j, m2, 1, 0, k, sa, sb);
    var m3 := Result(P, Part(P, j, 1, 0, k), m2);
    PartDone(P, j, m3, 1, 1, k, sa, sb);
    RoundWritten(m, m1, m2, m3, Result(P, Part(P, j, 1, 1, k), m3), j.c, P.power, j.n, sa, sb, k, add);
  }

  /** What both versions start from. */
  lemma BodyStarts(P: Params, j: Job, m: Mem)
    requires Fits(P, |m|, j) && Large(P.power, j.n)
    ensures j.n <= MAX_N && j.c + j.n * j.n <= |m| && j.a + j.n * j.n <= |m| && j.b + j.n * j.n <= |m| && Size(P.power, j.n)
    ensures RaceFree(MatrixLang(P, |m|), Body(P, j))
    ensures var sa, sb := Window(m, j.a, j.n * j.n), Window(m, j.b, j.n * j.n);
      Holding(P, j, m, sa, sb) && Goal(P, j, m) == Target(j.add, Window(m, j.c, j.n * j.n), Product(P.power, j.n, sa, sb))
  {
    BodyUnder(P, |m|, j);
    hide MatrixLang, Body, Size;
  }

  /** The version with syncs. */
  lemma {:induction false} RoundsDone(P: Params, j: Job, m: Mem)
    requires Fits(P, |m|, j) && Large(P.power, j.n) && !P.futures
    ensures RaceFree(MatrixLang(P, |m|), Body(P, j)) && Wrote(Result(P, Body(P, j), m), m, j.c, Goal(P, j, m))
    decreases j.n, 2
  {
    hide MatrixLang, Result, Holding, Fits, Large, SyncRound, RoundTarget, Wrote, RaceFree, Window, Product, Target, Size, Goal, Body;
    BodyStarts(P, j, m);
    var sa, sb := Window(m, j.a, j.n * j.n), Window(m, j.b, j.n * j.n);
    assert Body(P, j) == Then(SyncRound(P, j, 0), SyncRound(P, j, 1)) by { BodyIs(P, j); }
    RoundDone(P, j, m, 0, sa, sb);
    var m1 := Result(P, SyncRound(P, j, 0), m);
    RoundDone(P, j, m1, 1, sa, sb);
    ResultOfThen(P, SyncRound(P, j, 0), SyncRound(P, j, 1), m);
    RoundsWritten(m, m1, Result(P, SyncRound(P, j, 1), m1), j.c, P.power, j.n, sa, sb, j.add);
  }

  lemma BodyIs(P: Params, j: Job)
    requires j.n <= MAX_N
    ensures Body(P, j) == if P.futures then FourWays(Chain(P, j, 0, 0), Chain(P, j, 0, 1), Chain(P, j, 1, 0), Chain(P, j, 1, 1))
                          else Then(SyncRound(P, j, 0), SyncRound(P, j, 1))
  {
  }

  lemma RoundsWritten(w0: Mem, w1: Mem, w2: Mem, c: nat, power: nat, n: nat, sa: seq<int>, sb: seq<int>, add: bool)
    requires Large(power, n) && |sa| == |sb| == n * n && c + n * n <= |w0| == |w1|
    requires Wrote(w1, w0, c, RoundTarget(power, n, Window(w0, c, n * n), sa, sb, 0, add))
    requires Wrote(w2, w1, c, RoundTarget(power, n, Window(w1, c, n * n), sa, sb, 1, true))
    ensures Wrote(w2, w0, c, Target(add, Window(w0, c, n * n), Product(power, n, sa, sb)))
  {
    hide Large, RoundTarget, Wrote, Window, Product, Target;
    var r1 := RoundTarget(power, n, Window(w0, c, n * n), sa, sb, 0, add);
    WroteWindow(w1, w0, c, r1);
    WroteOver(w2, w1, w0, c, r1, RoundTarget(power, n, r1, sa, sb, 1, true));
    TwoRounds(power, n, Window(w0, c, n * n), sa, sb, add);
  }

  /** One quadrant gets both its products. */
  ghost predicate ChainWrote(now: Mem, was: Mem, c: nat, power: nat, n: nat, sa: seq<int>, sb: seq<int>, r: nat, s: nat, add: bool)
    requires Large(power, n) && |sa| == |sb| == n * n && r <= 1 && s <= 1 && c + n * n <= |was|
  {
    LargeHalf(power, n);
    Wrote(now, was, c + (2 * r + s) * (n / 2 * (n / 2)), Target(add, Quad(n, Window(was, c, n * n), r, s), QuadProduct(power, n, sa, sb, r, s)))
  }

  lemma TwoSteps(w0: Mem, w1: Mem, w2: Mem, c: nat, power: nat, n: nat, sa: seq<int>, sb: seq<int>, r: nat, s: nat, add: bool)
    requires Large(power, n) && |sa| == |sb| == n * n && r <= 1 && s <= 1 && c + n * n <= |w0| == |w1|
    requires StepWrote(w1, w0, c, power, n, sa, sb, r, s, 0, add) && StepWrote(w2, w1, c, power, n, sa, sb, r, s, 1, true)
    ensures ChainWrote(w2, w0, c, power, n, sa, sb, r, s, add)
  {
    hide Wrote, Target, Quad, Window, Size, Pow2, Product, Add;
    LargeHalf(power, n);
    var at := c + (2 * r + s) * (n / 2 * (n / 2));
    var t := StepTarget(w0, c, power, n, sa, sb, r, s, 0, add);
    WroteWindow(w1, w0, at, t);
    WindowQuad(w1, c, n, r, s);
    WroteOver(w2, w1, w0, at, t, StepTarget(w1, c, power, n, sa, sb, r, s, 1, true));
    AddTwice(add, Quad(n, Window(w0, c, n * n), r, s), Partial(power, n, sa, sb, r, s, 0), Partial(power, n, sa, sb, r, s, 1));
  }

  lemma {:induction false} ChainDone(P: Params, j: Job, m: Mem, r: nat, s: nat, sa: seq<int>, sb: seq<int>)
    requires Holding(P, j, m, sa, sb) && Large(P.power, j.n) && r <= 1 && s <= 1
    ensures RaceFree(MatrixLang(P, |m|), Chain(P, j, r, s))
    ensures var m' := Result(P, Chain(P, j, r, s), m);
      ChainWrote(m', m, j.c, P.power, j.n, sa, sb, r, s, j.add) && Holding(P, j, m', sa, sb)
    decreases j.n, 1
  {
    assert j.c + j.n * j.n <= |m| && j.n <= MAX_N && |sa| == |sb| == j.n * j.n;
    hide MatrixLang, Result, Holding, Large, Part, StepWrote, ChainWrote, Window, Size;
    PartDone(P, j, m, r, s, 0, sa, sb);
    var m1 := Result(P, Part(P, j, r, s, 0), m);
    PartDone(P, j, m1, r, s, 1, sa, sb);
    ResultOfThen(P, Part(P, j, r, s, 0), Part(P, j, r, s, 1), m);
    TwoSteps(m, m1, Result(P, Part(P, j, r, s, 1), m1), j.c, P.power, j.n, sa, sb, r, s, j.add);
  }

  lemma ChainsWritten(w0: Mem, w1: Mem, w2: Mem, w3: Mem, w4: Mem, c: nat, power: nat, n: nat, sa: seq<int>, sb: seq<int>, add: bool)
    requires Large(power, n) && |sa| == |sb| == n * n && c + n * n <= |w0| == |w1| == |w2| == |w3|
    requires ChainWrote(w1, w0, c, power, n, sa, sb, 0, 0, add) && ChainWrote(w2, w1, c, power, n, sa, sb, 0, 1, add)
    requires ChainWrote(w3, w2, c, power, n, sa, sb, 1, 0, add) && ChainWrote(w4, w3, c, power, n, sa, sb, 1, 1, add)
    ensures Wrote(w4, w0, c, Target(add, Window(w0, c, n * n), Product(power, n, sa, sb)))
  {
    hide Wrote, Target, Window, Quad, QuadProduct, Product, Size, Pow2;
    LargeHalf(power, n);
    var w, t := Window(w0, c, n * n), Target(add, Window(w0, c, n * n), Product(power, n, sa, sb));
    var s0, s1 := Target(add, Quad(n, Window(w0, c, n * n), 0, 0), QuadProduct(power, n, sa, sb, 0, 0)),
                  Target(add, Quad(n, Window(w1, c, n * n), 0, 1), QuadProduct(power, n, sa, sb, 0, 1));
    var s2, s3 := Target(add, Quad(n, Window(w2, c, n * n), 1, 0), QuadProduct(power, n, sa, sb, 1, 0)),
                  Target(add, Quad(n, Window(w3, c, n * n), 1, 1), QuadProduct(power, n, sa, sb, 1, 1));
    OtherQuad(w1, w0, c, n, 0, 0, s0, 0, 1);
    OtherQuad(w1, w0, c, n, 0, 0, s0, 1, 0);
    OtherQuad(w1, w0, c, n, 0, 0, s0, 1, 1);
    OtherQuad(w2, w1, c, n, 0, 1, s1, 1, 0);
    OtherQuad(w2, w1, c, n, 0, 1, s1, 1, 1);
    OtherQuad(w3, w2, c, n, 1, 0, s2, 1, 1);
    FourWrites(w0, w1, w2, w3, w4, c, n / 2 * (n / 2), s0, s1, s2, s3);
    TargetQuads(power, n, w, sa, sb, add);
  }

  lemma TargetQuads(power: nat, n: nat, w: seq<int>, sa: seq<int>, sb: seq<int>, add: bool)
    requires Large(power, n) && |w| == |sa| == |sb| == n * n
    ensures n % 2 == 0
    ensures Target(add, w, Product(power, n, sa, sb))
         == Target(add, Quad(n, w, 0, 0), QuadProduct(power, n, sa, sb, 0, 0)) + Target(add, Quad(n, w, 0, 1), QuadProduct(power, n, sa, sb, 0, 1))
            + Target(add, Quad(n, w, 1, 0), QuadProduct(power, n, sa, sb, 1, 0)) + Target(add, Quad(n, w, 1, 1), QuadProduct(power, n, sa, sb, 1, 1))
  {
    hide Target, Quad, QuadProduct, Product, Size, Pow2;
    LargeHalf(power, n);
    QuadsInOrder(n, Target(add, w, Product(power, n, sa, sb)));
    TargetQuad(power, n, w, sa, sb, add, 0, 0);
    TargetQuad(power, n, w, sa, sb, add, 0, 1);
    TargetQuad(power, n, w, sa, sb, add, 1, 0);
    TargetQuad(power, n, w, sa, sb, add, 1, 1);
  }

  lemma TargetQuad(power: nat, n: nat, w: seq<int>, sa: seq<int>, sb: seq<int>, add: bool, r: nat, c: nat)
    requires Large(power, n) && |w| == |sa| == |sb| == n * n && r <= 1 && c <= 1
    ensures n % 2 == 0
    ensures Quad(n, Target(add, w, Product(power, n, sa, sb)), r, c) == Target(add, Quad(n, w, r, c), QuadProduct(power, n, sa, sb, r, c))
  {
    hide Target, Quad, QuadProduct, Product, Size, Pow2;
    LargeHalf(power, n);
    QuadTarget(power, n, add, w, Product(power, n, sa, sb), r, c);
    ProductQuadrant(power, n, sa, sb, r, c);
  }

  lemma {:induction false} ChainsDone(P: Params, j: Job, m: Mem, sa: seq<int>, sb: seq<int>)
    requires Holding(P, j, m, sa, sb) && Large(P.power, j.n) && j.n <= MAX_N
    requires RaceFree(MatrixLang(P, |m|), FourWays(Chain(P, j, 0, 0), Chain(P, j, 0, 1), Chain(P, j, 1, 0), Chain(P, j, 1, 1)))
    ensures Wrote(Result(P, FourWays(Chain(P, j, 0, 0), Chain(P, j, 0, 1), Chain(P, j, 1, 0), Chain(P, j, 1, 1)), m), m, j.c,
                  Target(j.add, Window(m, j.c, j.n * j.n), Product(P.power, j.n, sa, sb)))
    decreases j.n, 2
  {
    assert j.c + j.n * j.n <= |m| && |sa| == |sb| == j.n * j.n;
    hide MatrixLang, Result, Holding, Large, Chain, ChainWrote, Wrote, RaceFree, Window, Product, Target;
    ResultOfFour(P, Chain(P, j, 0, 0), Chain(P, j, 0, 1), Chain(P, j, 1, 0), Chain(P, j, 1, 1), m);
    ChainDone(P, j, m, 0, 0, sa, sb);
    var m1 := Result(P, Chain(P, j, 0, 0), m);
    ChainDone(P, j, m1, 0, 1, sa, sb);
    var m2 := Result(P, Chain(P, j, 0, 1), m1);
    ChainDone(P, j, m2, 1, 0, sa, sb);
    var m3 := Result(P, Chain(P, j, 1, 0), m2);
    ChainDone(P, j, m3, 1, 1, sa, sb);
    ChainsWritten(m, m1, m2, m3, Result(P, Chain(P, j, 1, 1), m3), j.c, P.power, j.n, sa, sb, j.add);
  }

  /** The version with futures. */
  lemma {:induction false} FuturesDone(P: Params, j: Job, m: Mem)
    requires Fits(P, |m|, j) && Large(P.power, j.n) && P.futures
    ensures RaceFree(MatrixLang(P, |m|), Body(P, j)) && Wrote(Result(P, Body(P, j), m), m, j.c, Goal(P, j, m))
    decreases j.n, 3
  {
    hide MatrixLang, Result, Holding, Fits, Large, Chain, Wrote, RaceFree, Window, Product, Target, Goal, Body, Size;
    BodyStarts(P, j, m);
    var sa, sb := Window(m, j.a, j.n * j.n), Window(m, j.b, j.n * j.n);
    BodyIs(P, j);
    ChainsDone(P, j, m, sa, sb);
  }

  /** Above the block size: with syncs all four products of a round can go first, with futures the first products of all four
      quadrants. */
  lemma SpawnedSideBySide(P: Params, j: Job, m: Mem)
    requires Fits(P, |m|, j) && j.n != Pow2(P.power)
    ensures var p := Run(P, Multiply(j), m).rest;
      && (!P.futures ==> p.Then?)
      && forall r: nat, s: nat, k: nat :: r <= 1 && s <= 1 && k <= 1 && (P.futures ==> k == 0) ==>
           CanBeNext(if P.futures then p else if k == 0 then p.first else p.second, Multiply(SubJob(P, j, r, s, k)))
  {
    hide SubJob;
    var p := Run(P, Multiply(j), m).rest;
    forall r: nat, s: nat, k: nat | r <= 1 && s <= 1 && k <= 1 && (P.futures ==> k == 0)
      ensures CanBeNext(if P.futures then p else if k == 0 then p.first else p.second, Multiply(SubJob(P, j, r, s, k))) {
      if P.futures {
        OneOfFour(Chain(P, j, 0, 0), Chain(P, j, 0, 1), Chain(P, j, 1, 0), Chain(P, j, 1, 1), Multiply(SubJob(P, j, r, s, 0)));
      } else {
        OneOfFour(Part(P, j, 0, 0, k), Part(P, j, 0, 1, k), Part(P, j, 1, 0, k), Part(P, j, 1, 1, k), Multiply(SubJob(P, j, r, s, k)));
      }
    }
  }

  lemma OneOfFour(a: Proc<Task>, b: Proc<Task>, c: Proc<Task>, d: Proc<Task>, t: Task)
    requires CanBeNext(a, t) || CanBeNext(b, t) || CanBeNext(c, t) || CanBeNext(d, t)
    ensures CanBeNext(FourWays(a, b, c, d), t)
  {
    assert CanBeNext(Par(a, b), t) || CanBeNext(c, t) || CanBeNext(d, t);
    assert CanBeNext(Par(Par(a, b), c), t) || CanBeNext(d, t);
  }

  // ---------------------------------------------------------------- every schedule

  /** However many processors interleave the tasks, with syncs or with one future per quadrant: C ends as
      (add ? C : 0) + A * B, nothing else changes, and every schedule can be completed. */
  lemma EveryScheduleMultiplies(P: Params, j: Job, run: seq<Config<Task>>)
    requires run != [] && Schedule(MatrixLang(P, |run[0].mem|), run)
    requires run[0].prog == Call(Multiply(j)) && Fits(P, |run[0].mem|, j)
    ensures run[|run| - 1].prog.Done? ==> Wrote(run[|run| - 1].mem, run[0].mem, j.c, Goal(P, j, run[0].mem))
    ensures Sound(MatrixLang(P, |run[0].mem|)) && RaceFree(MatrixLang(P, |run[0].mem|), run[0].prog)
    ensures |run| - 1 <= Serial(MatrixLang(P, |run[0].mem|), run[0].prog, run[0].mem).steps
    ensures run[|run| - 1].prog.Done? <==> |run| - 1 == Serial(MatrixLang(P, |run[0].mem|), run[0].prog, run[0].mem).steps
  {
    var m := run[0].mem;
    var L := MatrixLang(P, |m|);
    MatrixIsSound(P, |m|);
    JobDone(P, j, m);
    NeverLonger(L, run);
    if run[|run| - 1].prog.Done? {
      Determinate(L, run);
    }
  }
}
