/**
 strassen_z as tasks that any number of processors may interleave: setup_add and final_add spawn a task per
 quadrant, and between them the seven products run in parallel, joined by a sync; getting all seven futures at the
 start of final_add amounts to that, as `strassen_futures.dfy` shows.  One memory holds the matrices and the scratch space; what a call allocates while it
 runs is a stretch of memory of its own, and so part of its footprint.
 */
module StrassenTasks {
  import opened Morton
  import opened BlockLayout
  import opened Matrices
  import opened ZMultiply
  import opened ForkJoin
  import Strassen
  import MatrixTasks

  /** The block size, and which version of mm_dac_z is below. */
  type Params = MatrixTasks.Params

  /** C := A * B: where the three n x n matrices start, and the memory for what is allocated. */
  datatype Mult = Mult(c: nat, a: nat, b: nat, n: nat, t: nat)

  datatype Task =
    | Multiply(j: Mult)
    | Setup(j: Mult, lo: nat, m: nat)          // setup_add on an m x m part, which starts at cell lo
    | SetupCells(j: Mult, x: nat, hi: nat)      // one block of it, from cell x on
    | Finish(j: Mult, lo: nat, m: nat)        // final_add on an m x m part
    | FinishCells(j: Mult, x: nat, hi: nat)
    | Below(task: MatrixTasks.Task)           // mm_dac_z

  // ---------------------------------------------------------------- where everything is

  /** Above the threshold. */
  predicate Big(P: Params, n: nat) {
    n > Pow2(P.power + 4)
  }

  /** One scratch matrix and its padding. */
  function Stride(n: nat): nat {
    n / 2 * (n / 2) + Strassen.PADDING
  }

  /** What a call on n x n matrices and the calls below it allocate together. */
  function Room(P: Params, n: nat): nat
    decreases n
  {
    if Big(P, n) && n > 0 then Strassen.Place(11, Stride(n)) + Strassen.Place(7, Room(P, n / 2)) else 0
  }

  /** Quadrant q of a matrix. */
  function QuadAt(P: Params, n: nat, at: nat, q: nat): nat
    requires n <= MAX_N && q < 4
  {
    at + Corner(P.power, n, if q < 2 then 0 else 1, if q == 0 || q == 2 then 0 else 1)
  }

  /** The quarter-size matrices of a call, by number: S1..S8, M2, M5, T1; the quadrants of C; of A; of B. */
  function SlotAt(P: Params, j: Mult, s: nat): nat
    requires j.n <= MAX_N && s < 23
  {
    if s < 11 then j.t + Strassen.Place(s, Stride(j.n))
    else if s < 15 then QuadAt(P, j.n, j.c, s - 11)
    else if s < 19 then QuadAt(P, j.n, j.a, s - 15)
    else QuadAt(P, j.n, j.b, s - 19)
  }

  /** The memory for what the i-th product allocates. */
  function RoomAt(P: Params, j: Mult, i: nat): nat {
    j.t + Strassen.Place(11, Stride(j.n)) + Strassen.Place(i, Room(P, j.n / 2))
  }

  // The seven products as the program lists them: P1, P5, P6, P7, P2, P3, P4.

  /** M2, M5, T1, C22, C11, C12, C21 */
  function OutSlot(i: nat): nat {
    if i < 3 then 8 + i else if i == 3 then 14 else if i == 4 then 11 else if i == 5 then 12 else 13
  }

  /** A11, S1, S2, S3, A12, S4, A22 */
  function LeftSlot(i: nat): nat {
    if i == 0 then 15 else if i < 4 then i - 1 else if i == 4 then 16 else if i == 5 then 3 else 18
  }

  /** B11, S5, S6, S7, B21, B22, S8 */
  function RightSlot(i: nat): nat {
    if i == 0 then 19 else if i < 4 then i + 3 else if i == 4 then 21 else if i == 5 then 22 else 7
  }

  function Sub(P: Params, j: Mult, i: nat): Mult
    requires j.n <= MAX_N
  {
    Mult(SlotAt(P, j, OutSlot(i)), SlotAt(P, j, LeftSlot(i)), SlotAt(P, j, RightSlot(i)), j.n / 2, RoomAt(P, j, i))
  }

  /** Two stretches of memory do not overlap. */
  predicate Off(p: nat, k: nat, q: nat, l: nat) {
    k == 0 || l == 0 || p + k <= q || q + l <= p
  }

  predicate Span(x: int, lo: nat, len: nat) {
    lo <= x < lo + len
  }

  /** Everything is in memory; the output and the scratch space overlap nothing else. */
  ghost predicate Fits(P: Params, size: nat, j: Mult) {
    && Size(P.power, j.n) && j.n <= MAX_N
    && j.c + j.n * j.n <= size && j.a + j.n * j.n <= size && j.b + j.n * j.n <= size && j.t + Room(P, j.n) <= size
    && Off(j.c, j.n * j.n, j.a, j.n * j.n) && Off(j.c, j.n * j.n, j.b, j.n * j.n)
    && Off(j.t, Room(P, j.n), j.a, j.n * j.n) && Off(j.t, Room(P, j.n), j.b, j.n * j.n) && Off(j.t, Room(P, j.n), j.c, j.n * j.n)
  }

  /** The number of cells of a quadrant. */
  function Cells(j: Mult): nat {
    j.n / 2 * (j.n / 2)
  }

  lemma BigIsLarge(P: Params, n: nat)
    requires Size(P.power, n) && Big(P, n)
    ensures Large(P.power, n) && n % 2 == 0 && Size(P.power, n / 2) && 0 < n / 2 < n && n * n == 4 * (n / 2 * (n / 2))
    ensures Room(P, n) == Strassen.Place(11, Stride(n)) + Strassen.Place(7, Room(P, n / 2))
  {
    Strassen.AboveThreshold(P.power, n);
    LargeHalf(P.power, n);
  }

  /** The quadrants are four quarters, one after the other. */
  lemma QuadAtIs(P: Params, n: nat, at: nat, q: nat)
    requires Large(P.power, n) && n <= MAX_N && q < 4
    ensures QuadAt(P, n, at, q) == at + Strassen.Place(q, n / 2 * (n / 2))
  {
    hide Corner, Size;
    CornerIsQuarter(P.power, n, if q < 2 then 0 else 1, if q == 0 || q == 2 then 0 else 1);
  }

  lemma PlaceInside(q: nat, k: nat, mm: nat)
    requires q < k
    ensures Strassen.Place(q, mm) + mm <= Strassen.Place(k, mm)
  {
    assert (q + 1) * mm <= k * mm;
  }

  /** Which part of the call's memory a slot is in. */
  lemma SlotInside(P: Params, size: nat, j: Mult, s: nat)
    requires Fits(P, size, j) && Big(P, j.n) && s < 23
    ensures var at, mm := SlotAt(P, j, s), Cells(j);
      && at + mm <= size
      && (if s < 11 then j.t <= at && at + mm <= j.t + Strassen.Place(11, Stride(j.n))
          else if s < 15 then j.c <= at && at + mm <= j.c + j.n * j.n
          else if s < 19 then j.a <= at && at + mm <= j.a + j.n * j.n
          else j.b <= at && at + mm <= j.b + j.n * j.n)
  {
    BigIsLarge(P, j.n);
    var mm := Cells(j);
    hide Strassen.Place, QuadAt, Size, Room, Big;
    if s < 11 {
      Strassen.PlacesApart(s, 11, Stride(j.n), mm);
    } else {
      var q := if s < 15 then s - 11 else if s < 19 then s - 15 else s - 19;
      QuadAtIs(P, j.n, if s < 15 then j.c else if s < 19 then j.a else j.b, q);
      PlaceInside(q, 4, mm);
      FourCellsWide(mm);
    }
  }

  lemma FourCellsWide(mm: nat)
    ensures Strassen.Place(4, mm) == 4 * mm
  {
  }

  /** A slot that is written overlaps no other slot. */
  lemma SlotsApart(P: Params, size: nat, j: Mult, s: nat, u: nat)
    requires Fits(P, size, j) && Big(P, j.n) && s < 15 && u < 23 && s != u
    ensures Off(SlotAt(P, j, s), Cells(j), SlotAt(P, j, u), Cells(j))
  {
    SlotInside(P, size, j, s);
    SlotInside(P, size, j, u);
    BigIsLarge(P, j.n);
    var mm := Cells(j);
    hide QuadAt, Size, Room, Big, Strassen.Place;
    if s < 11 && u < 11 {
      Strassen.PlacesApart(if s < u then s else u, if s < u then u else s, Stride(j.n), mm);
    } else if 11 <= s < 15 && 11 <= u < 15 {
      QuadAtIs(P, j.n, j.c, s - 11);
      QuadAtIs(P, j.n, j.c, u - 11);
      PlaceInside(if s < u then s - 11 else u - 11, if s < u then u - 11 else s - 11, mm);
    }
  }

  /** What a product allocates is inside the call's own scratch space, after its matrices. */
  lemma RoomInside(P: Params, size: nat, j: Mult, i: nat)
    requires Fits(P, size, j) && Big(P, j.n) && i < 7
    ensures j.t + Strassen.Place(11, Stride(j.n)) <= RoomAt(P, j, i)
    ensures RoomAt(P, j, i) + Room(P, j.n / 2) <= j.t + Room(P, j.n) <= size
  {
    BigIsLarge(P, j.n);
    hide Strassen.Place, Size, Room, Big;
    PlaceInside(i, 7, Room(P, j.n / 2));
  }

  lemma RoomOffSlot(P: Params, size: nat, j: Mult, i: nat, s: nat)
    requires Fits(P, size, j) && Big(P, j.n) && i < 7 && s < 23
    ensures Off(RoomAt(P, j, i), Room(P, j.n / 2), SlotAt(P, j, s), Cells(j))
  {
    hide Room, RoomAt, SlotAt, Size, Big, Strassen.Place;
    RoomInside(P, size, j, i);
    SlotInside(P, size, j, s);
  }

  lemma RoomsApart(P: Params, size: nat, j: Mult, i: nat, k: nat)
    requires Fits(P, size, j) && Big(P, j.n) && i < 7 && k < 7 && i != k
    ensures Off(RoomAt(P, j, i), Room(P, j.n / 2), RoomAt(P, j, k), Room(P, j.n / 2))
  {
    hide Room, Size, Big, Strassen.Place;
    PlaceInside(if i < k then i else k, if i < k then k else i, Room(P, j.n / 2));
  }

  /** Each product fits. */
  lemma SubFits(P: Params, size: nat, j: Mult, i: nat)
    requires Fits(P, size, j) && Big(P, j.n) && i < 7
    ensures Fits(P, size, Sub(P, j, i))
  {
    BigIsLarge(P, j.n);
    assert j.n <= MAX_N;
    hide Room, RoomAt, SlotAt, Size, Big, Large;
    SlotInside(P, size, j, OutSlot(i));
    SlotInside(P, size, j, LeftSlot(i));
    SlotInside(P, size, j, RightSlot(i));
    SlotsApart(P, size, j, OutSlot(i), LeftSlot(i));
    SlotsApart(P, size, j, OutSlot(i), RightSlot(i));
    RoomInside(P, size, j, i);
    RoomOffSlot(P, size, j, i, OutSlot(i));
    RoomOffSlot(P, size, j, i, LeftSlot(i));
    RoomOffSlot(P, size, j, i, RightSlot(i));
  }

  // ---------------------------------------------------------------- the tasks

  /** Cells lo..hi of the eight sums. */
  predicate InSums(j: Mult, lo: nat, hi: nat, x: int) {
    exists k: nat :: k < 8 && j.t + Strassen.Place(k, Stride(j.n)) + lo <= x < j.t + Strassen.Place(k, Stride(j.n)) + hi
  }

  /** Cells lo..hi of the four quadrants of the output. */
  predicate InQuads(P: Params, j: Mult, lo: nat, hi: nat, x: int) {
    j.n <= MAX_N && exists q: nat :: q < 4 && QuadAt(P, j.n, j.c, q) + lo <= x < QuadAt(P, j.n, j.c, q) + hi
  }

  predicate Operand(j: Mult, x: int) {
    Span(x, j.a, j.n * j.n) || Span(x, j.b, j.n * j.n)
  }

  predicate Reading(t: Task, x: int) {
    match t
    case Multiply(j) => Operand(j, x)
    case Setup(j, _, _) => Operand(j, x)
    case SetupCells(j, _, _) => Operand(j, x)
    case Finish(j, _, _) => Span(x, j.t, Strassen.Place(11, Stride(j.n)))
    case FinishCells(j, _, _) => Span(x, j.t, Strassen.Place(11, Stride(j.n)))
    case Below(u) => MatrixTasks.Reading(u, x)
  }

  predicate Writing(P: Params, t: Task, x: int) {
    match t
    case Multiply(j) => Span(x, j.c, j.n * j.n) || Span(x, j.t, Room(P, j.n))
    case Setup(j, lo, m) => InSums(j, lo, lo + m * m, x)
    case SetupCells(j, at, hi) => InSums(j, at, hi, x)
    case Finish(j, lo, m) => InQuads(P, j, lo, lo + m * m, x)
    case FinishCells(j, at, hi) => InQuads(P, j, at, hi, x)
    case Below(u) => MatrixTasks.Writing(u, x)
  }

  ghost predicate Above(P: Params, size: nat, j: Mult) {
    Fits(P, size, j) && Big(P, j.n)
  }

  ghost predicate Part(P: Params, size: nat, j: Mult, lo: nat, m: nat) {
    Above(P, size, j) && Size(P.power, m) && m <= MAX_N && lo + m * m <= Cells(j)
  }

  ghost predicate Sensible(P: Params, size: nat, t: Task) {
    match t
    case Multiply(j) => Fits(P, size, j)
    case Setup(j, lo, m) => Part(P, size, j, lo, m)
    case SetupCells(j, x, hi) => Above(P, size, j) && x <= hi <= Cells(j)
    case Finish(j, lo, m) => Part(P, size, j, lo, m)
    case FinishCells(j, x, hi) => Above(P, size, j) && x <= hi <= Cells(j)
    case Below(u) => MatrixTasks.Sensible(P, size, u)
  }

  /** How deep a task can go. */
  function Depth(t: Task): nat {
    match t
    case Multiply(j) => j.n * j.n + 2
    case Setup(_, _, m) => m * m + 1
    case SetupCells(_, x, hi) => if x < hi then hi - x else 0
    case Finish(_, _, m) => m * m + 1
    case FinishCells(_, x, hi) => if x < hi then hi - x else 0
    case Below(u) => MatrixTasks.Depth(u)
  }

  function FourWays(a: Task, b: Task, c: Task, d: Task): Proc<Task> {
    Par(Par(Par(Call(a), Call(b)), Call(c)), Call(d))
  }

  /** The first k of the seven products, side by side. */
  function Products(P: Params, j: Mult, k: nat): Proc<Task>
    requires j.n <= MAX_N
  {
    if k == 0 then Done else Par(Products(P, j, k - 1), Call(Multiply(Sub(P, j, k - 1))))
  }

  /** The tasks of mm_dac_z are tasks here. */
  function Lift(p: Proc<MatrixTasks.Task>): Proc<Task> {
    match p
    case Done => Done
    case Call(u) => Call(Below(u))
    case Then(q, r) => Then(Lift(q), Lift(r))
    case Par(q, r) => Par(Lift(q), Lift(r))
  }

  function Cell(m: Mem, i: int): int {
    if 0 <= i < |m| then m[i] else 0
  }

  /** Cell x of sum k, from the quadrants in memory. */
  function SumValue(P: Params, j: Mult, x: nat, m: Mem, k: nat): int
    requires j.n <= MAX_N
  {
    Strassen.SumAt(k, Cell(m, SlotAt(P, j, 15) + x), Cell(m, SlotAt(P, j, 16) + x), Cell(m, SlotAt(P, j, 17) + x), Cell(m, SlotAt(P, j, 18) + x),
                   Cell(m, SlotAt(P, j, 19) + x), Cell(m, SlotAt(P, j, 20) + x), Cell(m, SlotAt(P, j, 21) + x), Cell(m, SlotAt(P, j, 22) + x))
  }

  /** The sum whose cell x is y, or 8. */
  function WhichSum(P: Params, j: Mult, x: nat, y: int, k: nat): (r: nat)
    requires k <= 8 && j.n <= MAX_N
    ensures k <= r <= 8 && (r < 8 ==> y == SlotAt(P, j, r) + x)
    ensures r == 8 ==> forall l: nat :: k <= l < 8 ==> y != SlotAt(P, j, l) + x
    decreases 8 - k
  {
    if k == 8 || y == SlotAt(P, j, k) + x then k else WhichSum(P, j, x, y, k + 1)
  }

  /** Cell x of all eight sums is stored. */
  function SumsStored(P: Params, j: Mult, x: nat, m: Mem): (r: Mem)
    requires j.n <= MAX_N
    ensures |r| == |m|
  {
    seq(|m|, y requires 0 <= y < |m| => if WhichSum(P, j, x, y, 0) < 8 then SumValue(P, j, x, m, WhichSum(P, j, x, y, 0)) else m[y])
  }

  /** The quadrant of the output whose cell x is y, or 4. */
  function WhichQuad(P: Params, j: Mult, x: nat, y: int, q: nat): (r: nat)
    requires q <= 4 && j.n <= MAX_N
    ensures q <= r <= 4 && (r < 4 ==> y == QuadAt(P, j.n, j.c, r) + x)
    ensures r == 4 ==> forall l: nat :: q <= l < 4 ==> y != QuadAt(P, j.n, j.c, l) + x
    decreases 4 - q
  {
    if q == 4 || y == QuadAt(P, j.n, j.c, q) + x then q else WhichQuad(P, j, x, y, q + 1)
  }

  /** What final_add makes of cell x of each quadrant. */
  function Four(P: Params, j: Mult, x: nat, m: Mem): (int, int, int, int)
    requires j.n <= MAX_N
  {
    Recombined(Cell(m, SlotAt(P, j, 8) + x), Cell(m, SlotAt(P, j, 11) + x), Cell(m, SlotAt(P, j, 12) + x), Cell(m, SlotAt(P, j, 13) + x),
               Cell(m, SlotAt(P, j, 9) + x), Cell(m, SlotAt(P, j, 10) + x), Cell(m, SlotAt(P, j, 14) + x))
  }

  function Pick(v: (int, int, int, int), q: nat): int {
    if q == 0 then v.0 else if q == 1 then v.1 else if q == 2 then v.2 else v.3
  }

  function FinalStored(P: Params, j: Mult, x: nat, m: Mem): (r: Mem)
    requires j.n <= MAX_N
    ensures |r| == |m|
  {
    seq(|m|, y requires 0 <= y < |m| => if WhichQuad(P, j, x, y, 0) < 4 then Pick(Four(P, j, x, m), WhichQuad(P, j, x, y, 0)) else m[y])
  }

  /** mm_dac_z's job at the threshold. */
  function Plain(j: Mult): MatrixTasks.Task {
    MatrixTasks.Multiply(MatrixTasks.Job(j.c, j.a, j.b, j.n, false))
  }

  function RunMultiply(P: Params, j: Mult): Proc<Task>
    requires j.n <= MAX_N
  {
    if Big(P, j.n) then Then(Call(Setup(j, 0, j.n / 2)), Then(Products(P, j, 7), Call(Finish(j, 0, j.n / 2))))
    else Call(Below(Plain(j)))
  }

  function RunSetup(P: Params, j: Mult, lo: nat, m: nat): Proc<Task>
    requires m <= MAX_N
  {
    if m == Pow2(P.power) then Call(SetupCells(j, lo, lo + m * m))
    else FourWays(Setup(j, QuadAt(P, m, lo, 0), m / 2), Setup(j, QuadAt(P, m, lo, 1), m / 2),
                  Setup(j, QuadAt(P, m, lo, 2), m / 2), Setup(j, QuadAt(P, m, lo, 3), m / 2))
  }

  function RunFinish(P: Params, j: Mult, lo: nat, m: nat): Proc<Task>
    requires m <= MAX_N
  {
    if m == Pow2(P.power) then Call(FinishCells(j, lo, lo + m * m))
    else FourWays(Finish(j, QuadAt(P, m, lo, 0), m / 2), Finish(j, QuadAt(P, m, lo, 1), m / 2),
                  Finish(j, QuadAt(P, m, lo, 2), m / 2), Finish(j, QuadAt(P, m, lo, 3), m / 2))
  }

  ghost function Run(P: Params, t: Task, m: Mem): Outcome<Task>
    requires Sensible(P, |m|, t)
  {
    match t
    case Multiply(j) => Outcome(RunMultiply(P, j), m)
    case Setup(j, lo, k) => Outcome(RunSetup(P, j, lo, k), m)
    case SetupCells(j, x, hi) => if x < hi then Outcome(Call(SetupCells(j, x + 1, hi)), SumsStored(P, j, x, m)) else Outcome(Done, m)
    case Finish(j, lo, k) => Outcome(RunFinish(P, j, lo, k), m)
    case FinishCells(j, x, hi) => if x < hi then Outcome(Call(FinishCells(j, x + 1, hi)), FinalStored(P, j, x, m)) else Outcome(Done, m)
    case Below(u) => Outcome(Lift(MatrixTasks.Run(P, u, m).rest), MatrixTasks.Run(P, u, m).mem)
  }

  ghost function StrassenLang(P: Params, size: nat): Lang<Task> {
    Lang(size, (t: Task, m: Mem) => if Sensible(P, |m|, t) then Run(P, t, m) else Outcome(Done, m),
         Reading, (t: Task, x: int) => Writing(P, t, x), Depth, (t: Task) => Sensible(P, size, t))
  }

  // ---------------------------------------------------------------- no conflicts

  /** c is a task that t may leave. */
  ghost predicate Child(P: Params, size: nat, c: Task, t: Task) {
    && Sensible(P, size, c) && Depth(c) < Depth(t)
    && (forall x :: Writing(P, c, x) ==> Writing(P, t, x))
    && (forall x :: Reading(c, x) ==> Reading(t, x) || Writing(P, t, x))
  }

  lemma ChildUnder(P: Params, size: nat, c: Task, t: Task)
    requires Child(P, size, c, t)
    ensures Under(StrassenLang(P, size), Call(c), t)
  {
    hide Sensible, Depth, Reading, Writing, Run;
  }

  /** Neither writes what the other touches. */
  ghost predicate Siblings(P: Params, c: Task, d: Task) {
    forall x :: !(Writing(P, c, x) && (Reading(d, x) || Writing(P, d, x))) && !(Writing(P, d, x) && (Reading(c, x) || Writing(P, c, x)))
  }

  lemma SiblingsApart(P: Params, size: nat, c: Task, d: Task)
    requires Siblings(P, c, d)
    ensures Apart(StrassenLang(P, size), Call(c), Call(d))
  {
    hide Sensible, Depth, Reading, Writing, Run;
  }

  lemma FourUnder(P: Params, size: nat, t: Task, a: Task, b: Task, c: Task, d: Task)
    requires Child(P, size, a, t) && Child(P, size, b, t) && Child(P, size, c, t) && Child(P, size, d, t)
    requires Siblings(P, a, b) && Siblings(P, a, c) && Siblings(P, a, d) && Siblings(P, b, c) && Siblings(P, b, d) && Siblings(P, c, d)
    ensures Under(StrassenLang(P, size), FourWays(a, b, c, d), t)
  {
    hide Siblings, Child, StrassenLang, Under, Apart;
    var L := StrassenLang(P, size);
    ChildUnder(P, size, a, t);
    ChildUnder(P, size, b, t);
    ChildUnder(P, size, c, t);
    ChildUnder(P, size, d, t);
    SiblingsApart(P, size, a, b);
    SiblingsApart(P, size, a, c);
    SiblingsApart(P, size, a, d);
    SiblingsApart(P, size, b, c);
    SiblingsApart(P, size, b, d);
    SiblingsApart(P, size, c, d);
    ParUnder(L, Call(a), Call(b), t);
    ParApart(L, Call(a), Call(b), Call(c));
    ParUnder(L, Par(Call(a), Call(b)), Call(c), t);
    ParApart(L, Call(a), Call(b), Call(d));
    ParApart(L, Par(Call(a), Call(b)), Call(c), Call(d));
    ParUnder(L, Par(Par(Call(a), Call(b)), Call(c)), Call(d), t);
  }

  // Which memory the tasks touch.

  lemma InSumsInside(P: Params, size: nat, j: Mult, lo: nat, hi: nat, x: int)
    requires Above(P, size, j) && hi <= Cells(j) && InSums(j, lo, hi, x)
    ensures Span(x, j.t, Strassen.Place(11, Stride(j.n))) && Span(x, j.t, Room(P, j.n))
  {
    hide Strassen.Place, Room, Size, Big;
    BigIsLarge(P, j.n);
    var k: nat :| k < 8 && j.t + Strassen.Place(k, Stride(j.n)) + lo <= x < j.t + Strassen.Place(k, Stride(j.n)) + hi;
    Strassen.PlacesApart(k, 11, Stride(j.n), Cells(j));
  }

  lemma InQuadsInside(P: Params, size: nat, j: Mult, lo: nat, hi: nat, x: int)
    requires Above(P, size, j) && hi <= Cells(j) && InQuads(P, j, lo, hi, x)
    ensures Span(x, j.c, j.n * j.n)
  {
    var q: nat :| q < 4 && QuadAt(P, j.n, j.c, q) + lo <= x < QuadAt(P, j.n, j.c, q) + hi;
    hide Room, Size, Big, QuadAt;
    SlotInside(P, size, j, 11 + q);
  }

  /** The call's output, its scratch space and its operands are three different things. */
  lemma ThreeParts(P: Params, size: nat, j: Mult, x: int)
    requires Fits(P, size, j)
    ensures !(Span(x, j.c, j.n * j.n) && Operand(j, x))
    ensures !(Span(x, j.t, Room(P, j.n)) && (Operand(j, x) || Span(x, j.c, j.n * j.n)))
  {
    hide Room, Size;
  }

  lemma SumsOnce(P: Params, size: nat, j: Mult, lo: nat, hi: nat, lo': nat, hi': nat, x: int)
    requires Above(P, size, j) && hi <= Cells(j) && hi' <= Cells(j) && (hi <= lo' || hi' <= lo)
    ensures !(InSums(j, lo, hi, x) && InSums(j, lo', hi', x))
  {
    hide Room, Size, Big, Strassen.Place;
    if InSums(j, lo, hi, x) && InSums(j, lo', hi', x) {
      var k: nat :| k < 8 && j.t + Strassen.Place(k, Stride(j.n)) + lo <= x < j.t + Strassen.Place(k, Stride(j.n)) + hi;
      var l: nat :| l < 8 && j.t + Strassen.Place(l, Stride(j.n)) + lo' <= x < j.t + Strassen.Place(l, Stride(j.n)) + hi';
      if k != l {
        Strassen.PlacesApart(if k < l then k else l, if k < l then l else k, Stride(j.n), Cells(j));
      }
    }
  }

  lemma QuadsOnce(P: Params, size: nat, j: Mult, lo: nat, hi: nat, lo': nat, hi': nat, x: int)
    requires Above(P, size, j) && hi <= Cells(j) && hi' <= Cells(j) && (hi <= lo' || hi' <= lo)
    ensures !(InQuads(P, j, lo, hi, x) && InQuads(P, j, lo', hi', x))
  {
    hide Room, Size, Big, QuadAt;
    if InQuads(P, j, lo, hi, x) && InQuads(P, j, lo', hi', x) {
      var q: nat :| q < 4 && QuadAt(P, j.n, j.c, q) + lo <= x < QuadAt(P, j.n, j.c, q) + hi;
      var r: nat :| r < 4 && QuadAt(P, j.n, j.c, r) + lo' <= x < QuadAt(P, j.n, j.c, r) + hi';
      if q != r {
        SlotsApart(P, size, j, 11 + q, 11 + r);
      }
    }
  }

  /** The quarters of a part, one after the other. */
  lemma QuarterRange(P: Params, m: nat, lo: nat, q: nat)
    requires Large(P.power, m) && m <= MAX_N && q < 4
    ensures m % 2 == 0 && Size(P.power, m / 2) && 0 < m / 2 < m
    ensures m * m == 4 * (m / 2 * (m / 2)) && QuadAt(P, m, lo, q) == lo + q * (m / 2 * (m / 2))
  {
    hide QuadAt, Size, Pow2;
    LargeHalf(P.power, m);
    QuadAtIs(P, m, lo, q);
  }

  /** A smaller range of the same sums, or of the same quadrants. */
  lemma InMore(P: Params, j: Mult, lo: nat, hi: nat, lo': nat, hi': nat, x: int)
    requires lo' <= lo && hi <= hi'
    ensures InSums(j, lo, hi, x) ==> InSums(j, lo', hi', x)
    ensures InQuads(P, j, lo, hi, x) ==> InQuads(P, j, lo', hi', x)
  {
    hide Strassen.Place, QuadAt;
  }

  lemma PartChild(P: Params, size: nat, j: Mult, lo: nat, m: nat, lo': nat, m': nat)
    requires Part(P, size, j, lo, m) && Size(P.power, m') && m' <= MAX_N && lo <= lo' && lo' + m' * m' <= lo + m * m && m' * m' < m * m
    ensures Child(P, size, Setup(j, lo', m'), Setup(j, lo, m)) && Child(P, size, Finish(j, lo', m'), Finish(j, lo, m))
  {
    hide InSums, InQuads, Operand, Size;
    var hi', hi := lo' + m' * m', lo + m * m;
    forall x
      ensures InSums(j, lo', hi', x) ==> InSums(j, lo, hi, x)
      ensures InQuads(P, j, lo', hi', x) ==> InQuads(P, j, lo, hi, x) {
      InMore(P, j, lo', hi', lo, hi, x);
    }
  }

  lemma BlockChild(P: Params, size: nat, j: Mult, lo: nat, m: nat)
    requires Part(P, size, j, lo, m)
    ensures Child(P, size, SetupCells(j, lo, lo + m * m), Setup(j, lo, m)) && Child(P, size, FinishCells(j, lo, lo + m * m), Finish(j, lo, m))
  {
    hide InSums, InQuads, Operand, Size;
  }

  lemma NextChild(P: Params, size: nat, j: Mult, x: nat, hi: nat)
    requires Above(P, size, j) && x < hi <= Cells(j)
    ensures Child(P, size, SetupCells(j, x + 1, hi), SetupCells(j, x, hi)) && Child(P, size, FinishCells(j, x + 1, hi), FinishCells(j, x, hi))
  {
    hide InSums, InQuads, Operand, Fits, Big;
    forall y
      ensures InSums(j, x + 1, hi, y) ==> InSums(j, x, hi, y)
      ensures InQuads(P, j, x + 1, hi, y) ==> InQuads(P, j, x, hi, y) {
      InMore(P, j, x + 1, hi, x, hi, y);
    }
  }

  lemma SumsClear(P: Params, size: nat, j: Mult, lo: nat, hi: nat, lo': nat, hi': nat, x: int)
    requires Above(P, size, j) && hi <= lo' && hi <= Cells(j) && hi' <= Cells(j) && InSums(j, lo, hi, x)
    ensures !InSums(j, lo', hi', x) && !Operand(j, x)
  {
    hide InSums, Operand, Fits, Big, Room;
    SumsOnce(P, size, j, lo, hi, lo', hi', x);
    InSumsInside(P, size, j, lo, hi, x);
    ThreeParts(P, size, j, x);
  }

  lemma SumsClearBack(P: Params, size: nat, j: Mult, lo: nat, hi: nat, lo': nat, hi': nat, x: int)
    requires Above(P, size, j) && hi <= lo' && hi <= Cells(j) && hi' <= Cells(j) && InSums(j, lo', hi', x)
    ensures !InSums(j, lo, hi, x) && !Operand(j, x)
  {
    hide InSums, Operand, Fits, Big, Room;
    SumsOnce(P, size, j, lo, hi, lo', hi', x);
    InSumsInside(P, size, j, lo', hi', x);
    ThreeParts(P, size, j, x);
  }

  lemma SetupSiblings(P: Params, size: nat, j: Mult, lo: nat, m: nat, lo': nat, m': nat)
    requires Part(P, size, j, lo, m) && Part(P, size, j, lo', m') && lo + m * m <= lo'
    ensures Siblings(P, Setup(j, lo, m), Setup(j, lo', m'))
  {
    hide InSums, Operand, Size, Fits, Big;
    forall x | InSums(j, lo, lo + m * m, x) ensures !InSums(j, lo', lo' + m' * m', x) && !Operand(j, x) {
      SumsClear(P, size, j, lo, lo + m * m, lo', lo' + m' * m', x);
    }
    forall x | InSums(j, lo', lo' + m' * m', x) ensures !InSums(j, lo, lo + m * m, x) && !Operand(j, x) {
      SumsClearBack(P, size, j, lo, lo + m * m, lo', lo' + m' * m', x);
    }
  }

  lemma QuadsClear(P: Params, size: nat, j: Mult, lo: nat, hi: nat, x: int)
    requires Above(P, size, j) && hi <= Cells(j) && InQuads(P, j, lo, hi, x)
    ensures !Span(x, j.t, Strassen.Place(11, Stride(j.n)))
  {
    BigIsLarge(P, j.n);
    hide InQuads, Fits, Big, Room, Strassen.Place, Size;
    InQuadsInside(P, size, j, lo, hi, x);
    ThreeParts(P, size, j, x);
  }

  lemma FinishSiblings(P: Params, size: nat, j: Mult, lo: nat, m: nat, lo': nat, m': nat)
    requires Part(P, size, j, lo, m) && Part(P, size, j, lo', m') && lo + m * m <= lo'
    ensures Siblings(P, Finish(j, lo, m), Finish(j, lo', m'))
  {
    hide InQuads, Size, Fits, Big, Strassen.Place;
    forall x | InQuads(P, j, lo, lo + m * m, x)
      ensures !InQuads(P, j, lo', lo' + m' * m', x) && !Span(x, j.t, Strassen.Place(11, Stride(j.n))) {
      QuadsOnce(P, size, j, lo, lo + m * m, lo', lo' + m' * m', x);
      QuadsClear(P, size, j, lo, lo + m * m, x);
    }
    forall x | InQuads(P, j, lo', lo' + m' * m', x) ensures !Span(x, j.t, Strassen.Place(11, Stride(j.n))) {
      QuadsClear(P, size, j, lo', lo' + m' * m', x);
    }
  }

  /** Each quarter of a part. */
  lemma QuarterPart(P: Params, size: nat, j: Mult, lo: nat, m: nat, q: nat)
    requires Part(P, size, j, lo, m) && m != Pow2(P.power) && q < 4
    ensures var at, h := QuadAt(P, m, lo, q), m / 2;
      && at == lo + q * (h * h) && Part(P, size, j, at, h)
      && Child(P, size, Setup(j, at, h), Setup(j, lo, m)) && Child(P, size, Finish(j, at, h), Finish(j, lo, m))
  {
    AboveABlock(P.power, m);
    QuarterRange(P, m, lo, q);
    hide Child, QuadAt, Size, Above, Pow2;
    var h := m / 2;
    QuarterFits(h * h, q);
    SquarePositive(h);
    assert Part(P, size, j, lo + q * (h * h), h);
    hide Part;
    PartChild(P, size, j, lo, m, lo + q * (h * h), h);
  }

  lemma QuarterFits(hh: nat, q: nat)
    requires q < 4
    ensures q * hh + hh <= 4 * hh
  {
  }

  lemma SquarePositive(h: nat)
    requires h > 0
    ensures h * h > 0
  {
  }

  lemma SetupUnder(P: Params, size: nat, j: Mult, lo: nat, m: nat)
    requires Part(P, size, j, lo, m)
    ensures Under(StrassenLang(P, size), RunSetup(P, j, lo, m), Setup(j, lo, m))
  {
    if m == Pow2(P.power) {
      BlockChild(P, size, j, lo, m);
      ChildUnder(P, size, SetupCells(j, lo, lo + m * m), Setup(j, lo, m));
    } else {
      QuarterPart(P, size, j, lo, m, 0);
      QuarterPart(P, size, j, lo, m, 1);
      QuarterPart(P, size, j, lo, m, 2);
      QuarterPart(P, size, j, lo, m, 3);
      assert m <= MAX_N;
      hide Part, QuadAt, Child, StrassenLang, Under;
      FourSetupsUnder(P, size, j, lo, m, m / 2, QuadAt(P, m, lo, 0), QuadAt(P, m, lo, 1), QuadAt(P, m, lo, 2), QuadAt(P, m, lo, 3));
    }
  }

  lemma FourSetupsUnder(P: Params, size: nat, j: Mult, lo: nat, m: nat, h: nat, a: nat, b: nat, c: nat, d: nat)
    requires Part(P, size, j, a, h) && Part(P, size, j, b, h) && Part(P, size, j, c, h) && Part(P, size, j, d, h)
    requires a + h * h <= b && b + h * h <= c && c + h * h <= d
    requires var t := Setup(j, lo, m);
      Child(P, size, Setup(j, a, h), t) && Child(P, size, Setup(j, b, h), t) && Child(P, size, Setup(j, c, h), t) && Child(P, size, Setup(j, d, h), t)
    ensures Under(StrassenLang(P, size), FourWays(Setup(j, a, h), Setup(j, b, h), Setup(j, c, h), Setup(j, d, h)), Setup(j, lo, m))
  {
    hide Part, Child, Siblings, StrassenLang, Under, FourWays;
    SetupSiblings(P, size, j, a, h, b, h);
    SetupSiblings(P, size, j, a, h, c, h);
    SetupSiblings(P, size, j, a, h, d, h);
    SetupSiblings(P, size, j, b, h, c, h);
    SetupSiblings(P, size, j, b, h, d, h);
    SetupSiblings(P, size, j, c, h, d, h);
    FourUnder(P, size, Setup(j, lo, m), Setup(j, a, h), Setup(j, b, h), Setup(j, c, h), Setup(j, d, h));
  }

  lemma FinishUnder(P: Params, size: nat, j: Mult, lo: nat, m: nat)
    requires Part(P, size, j, lo, m)
    ensures Under(StrassenLang(P, size), RunFinish(P, j, lo, m), Finish(j, lo, m))
  {
    if m == Pow2(P.power) {
      BlockChild(P, size, j, lo, m);
      ChildUnder(P, size, FinishCells(j, lo, lo + m * m), Finish(j, lo, m));
    } else {
      QuarterPart(P, size, j, lo, m, 0);
      QuarterPart(P, size, j, lo, m, 1);
      QuarterPart(P, size, j, lo, m, 2);
      QuarterPart(P, size, j, lo, m, 3);
      assert m <= MAX_N;
      hide Part, QuadAt, Child, StrassenLang, Under;
      FourFinishesUnder(P, size, j, lo, m, m / 2, QuadAt(P, m, lo, 0), QuadAt(P, m, lo, 1), QuadAt(P, m, lo, 2), QuadAt(P, m, lo, 3));
    }
  }

  lemma FourFinishesUnder(P: Params, size: nat, j: Mult, lo: nat, m: nat, h: nat, a: nat, b: nat, c: nat, d: nat)
    requires Part(P, size, j, a, h) && Part(P, size, j, b, h) && Part(P, size, j, c, h) && Part(P, size, j, d, h)
    requires a + h * h <= b && b + h * h <= c && c + h * h <= d
    requires var t := Finish(j, lo, m);
      Child(P, size, Finish(j, a, h), t) && Child(P, size, Finish(j, b, h), t) && Child(P, size, Finish(j, c, h), t) && Child(P, size, Finish(j, d, h), t)
    ensures Under(StrassenLang(P, size), FourWays(Finish(j, a, h), Finish(j, b, h), Finish(j, c, h), Finish(j, d, h)), Finish(j, lo, m))
  {
    hide Part, Child, Siblings, StrassenLang, Under, FourWays;
    FinishSiblings(P, size, j, a, h, b, h);
    FinishSiblings(P, size, j, a, h, c, h);
    FinishSiblings(P, size, j, a, h, d, h);
    FinishSiblings(P, size, j, b, h, c, h);
    FinishSiblings(P, size, j, b, h, d, h);
    FinishSiblings(P, size, j, c, h, d, h);
    FourUnder(P, size, Finish(j, lo, m), Finish(j, a, h), Finish(j, b, h), Finish(j, c, h), Finish(j, d, h));
  }

  // The products.

  /** A product's output and scratch space, and what it touches, inside the call. */
  lemma SubTouches(P: Params, size: nat, j: Mult, i: nat, x: int)
    requires Above(P, size, j) && i < 7
    ensures Writing(P, Multiply(Sub(P, j, i)), x) ==> Writing(P, Multiply(j), x)
    ensures Reading(Multiply(Sub(P, j, i)), x) ==> Reading(Multiply(j), x) || Writing(P, Multiply(j), x)
  {
    BigIsLarge(P, j.n);
    hide Room, RoomAt, SlotAt, Size, Big, Large, Strassen.Place;
    SlotInside(P, size, j, OutSlot(i));
    SlotInside(P, size, j, LeftSlot(i));
    SlotInside(P, size, j, RightSlot(i));
    RoomInside(P, size, j, i);
  }

  lemma SubChild(P: Params, size: nat, j: Mult, i: nat)
    requires Above(P, size, j) && i < 7
    ensures j.n <= MAX_N && Child(P, size, Multiply(Sub(P, j, i)), Multiply(j))
  {
    SubFits(P, size, j, i);
    BigIsLarge(P, j.n);
    SquarePositive(j.n / 2);
    hide Room, Fits, Writing, Reading, Big, Large;
    forall x ensures Writing(P, Multiply(Sub(P, j, i)), x) ==> Writing(P, Multiply(j), x)
      ensures Reading(Multiply(Sub(P, j, i)), x) ==> Reading(Multiply(j), x) || Writing(P, Multiply(j), x) {
      SubTouches(P, size, j, i, x);
    }
  }

  /** What product i writes, product k does not touch. */
  lemma SubClear(P: Params, size: nat, j: Mult, i: nat, k: nat, x: int)
    requires Above(P, size, j) && i < 7 && k < 7 && i != k && Writing(P, Multiply(Sub(P, j, i)), x)
    ensures !Writing(P, Multiply(Sub(P, j, k)), x) && !Reading(Multiply(Sub(P, j, k)), x)
  {
    hide Room, RoomAt, SlotAt, Fits, Big;
    SlotsApart(P, size, j, OutSlot(i), OutSlot(k));
    SlotsApart(P, size, j, OutSlot(i), LeftSlot(k));
    SlotsApart(P, size, j, OutSlot(i), RightSlot(k));
    RoomOffSlot(P, size, j, i, OutSlot(k));
    RoomOffSlot(P, size, j, i, LeftSlot(k));
    RoomOffSlot(P, size, j, i, RightSlot(k));
    RoomOffSlot(P, size, j, k, OutSlot(i));
    RoomsApart(P, size, j, i, k);
  }

  lemma SubSiblings(P: Params, size: nat, j: Mult, i: nat, k: nat)
    requires Above(P, size, j) && i < 7 && k < 7 && i != k
    ensures j.n <= MAX_N && Siblings(P, Multiply(Sub(P, j, i)), Multiply(Sub(P, j, k)))
  {
    assert j.n <= MAX_N;
    hide Above, Writing, Reading, Sub;
    var a, b := Multiply(Sub(P, j, i)), Multiply(Sub(P, j, k));
    forall x | Writing(P, a, x) ensures !Writing(P, b, x) && !Reading(b, x) {
      SubClear(P, size, j, i, k, x);
    }
    forall x | Writing(P, b, x) ensures !Writing(P, a, x) && !Reading(a, x) {
      SubClear(P, size, j, k, i, x);
    }
  }

  lemma {:induction false} ProductsApart(P: Params, size: nat, j: Mult, k: nat, i: nat)
    requires Above(P, size, j) && k <= i < 7
    ensures j.n <= MAX_N && Apart(StrassenLang(P, size), Products(P, j, k), Call(Multiply(Sub(P, j, i))))
  {
    assert j.n <= MAX_N;
    var L, sub := StrassenLang(P, size), Call(Multiply(Sub(P, j, i)));
    hide StrassenLang, Above, Apart, Sub;
    if k == 0 {
      DoneApart(L, sub);
    } else {
      ProductsApart(P, size, j, k - 1, i);
      SubSiblings(P, size, j, k - 1, i);
      SiblingsApart(P, size, Multiply(Sub(P, j, k - 1)), Multiply(Sub(P, j, i)));
      ParApart(L, Products(P, j, k - 1), Call(Multiply(Sub(P, j, k - 1))), sub);
    }
  }

  lemma DoneApart<T>(L: Lang<T>, p: Proc<T>)
    ensures Apart(L, Done, p)
  {
  }

  lemma {:induction false} ProductsUnder(P: Params, size: nat, j: Mult, k: nat)
    requires Above(P, size, j) && k <= 7
    ensures j.n <= MAX_N && Under(StrassenLang(P, size), Products(P, j, k), Multiply(j))
  {
    assert j.n <= MAX_N;
    var L, t := StrassenLang(P, size), Multiply(j);
    if k == 0 {
      assert Under(L, Done, t);
    } else {
      hide StrassenLang, Above, Apart, Under, Sub, Child;
      ProductsUnder(P, size, j, k - 1);
      SubChild(P, size, j, k - 1);
      ChildUnder(P, size, Multiply(Sub(P, j, k - 1)), t);
      ProductsApart(P, size, j, k - 1, k - 1);
      ParUnder(L, Products(P, j, k - 1), Call(Multiply(Sub(P, j, k - 1))), t);
    }
  }

  /** The sums and the final additions of a call are its tasks. */
  lemma EndsChild(P: Params, size: nat, j: Mult)
    requires Above(P, size, j)
    ensures Child(P, size, Setup(j, 0, j.n / 2), Multiply(j)) && Child(P, size, Finish(j, 0, j.n / 2), Multiply(j))
  {
    BigIsLarge(P, j.n);
    SquarePositive(j.n / 2);
    hide Room, Fits, Big, Large, InSums, InQuads, Operand, Strassen.Place;
    forall x ensures InSums(j, 0, Cells(j), x) ==> Span(x, j.t, Room(P, j.n)) {
      if InSums(j, 0, Cells(j), x) {
        InSumsInside(P, size, j, 0, Cells(j), x);
      }
    }
    forall x ensures InQuads(P, j, 0, Cells(j), x) ==> Span(x, j.c, j.n * j.n) {
      if InQuads(P, j, 0, Cells(j), x) {
        InQuadsInside(P, size, j, 0, Cells(j), x);
      }
    }
    assert Part(P, size, j, 0, j.n / 2) by {
      assert j.n <= MAX_N by { FitsInt(P, size, j); }
    }
  }

  lemma FitsInt(P: Params, size: nat, j: Mult)
    requires Fits(P, size, j)
    ensures j.n <= MAX_N
  {
  }

  lemma PlainChild(P: Params, size: nat, j: Mult)
    requires Fits(P, size, j)
    ensures Child(P, size, Below(Plain(j)), Multiply(j))
  {
    hide Room, Size;
    SizePositive(P.power, j.n);
    SquarePositive(j.n);
  }

  lemma SizePositive(power: nat, n: nat)
    requires Size(power, n)
    ensures n > 0
  {
  }

  lemma MultiplyUnder(P: Params, size: nat, j: Mult)
    requires Fits(P, size, j)
    ensures Under(StrassenLang(P, size), RunMultiply(P, j), Multiply(j))
  {
    var L, t := StrassenLang(P, size), Multiply(j);
    assert j.n <= MAX_N;
    hide StrassenLang, Under, Child, Fits, Products;
    if Big(P, j.n) {
      EndsChild(P, size, j);
      ChildUnder(P, size, Setup(j, 0, j.n / 2), t);
      ChildUnder(P, size, Finish(j, 0, j.n / 2), t);
      ProductsUnder(P, size, j, 7);
      ThenUnder(L, Products(P, j, 7), Call(Finish(j, 0, j.n / 2)), t);
      ThenUnder(L, Call(Setup(j, 0, j.n / 2)), Then(Products(P, j, 7), Call(Finish(j, 0, j.n / 2))), t);
    } else {
      PlainChild(P, size, j);
      ChildUnder(P, size, Below(Plain(j)), t);
    }
  }

  // mm_dac_z's tasks, lifted.

  lemma {:induction false} LiftTouches(P: Params, size: nat, p: Proc<MatrixTasks.Task>, x: int)
    ensures Writes(StrassenLang(P, size), Lift(p), x) <==> Writes(MatrixTasks.MatrixLang(P, size), p, x)
    ensures Touches(StrassenLang(P, size), Lift(p), x) <==> Touches(MatrixTasks.MatrixLang(P, size), p, x)
  {
    hide Sensible, Run, MatrixTasks.Sensible, MatrixTasks.Run, MatrixTasks.Reading, MatrixTasks.Writing;
    match p
    case Done =>
    case Call(_) =>
    case Then(q, r) =>
      LiftTouches(P, size, q, x);
      LiftTouches(P, size, r, x);
    case Par(q, r) =>
      LiftTouches(P, size, q, x);
      LiftTouches(P, size, r, x);
  }

  lemma LiftFootprint(P: Params, size: nat, p: Proc<MatrixTasks.Task>)
    ensures forall x :: Writes(StrassenLang(P, size), Lift(p), x) <==> Writes(MatrixTasks.MatrixLang(P, size), p, x)
    ensures forall x :: Touches(StrassenLang(P, size), Lift(p), x) <==> Touches(MatrixTasks.MatrixLang(P, size), p, x)
  {
    hide StrassenLang, MatrixTasks.MatrixLang, Writes, Touches;
    forall x ensures Writes(StrassenLang(P, size), Lift(p), x) <==> Writes(MatrixTasks.MatrixLang(P, size), p, x)
      ensures Touches(StrassenLang(P, size), Lift(p), x) <==> Touches(MatrixTasks.MatrixLang(P, size), p, x) {
      LiftTouches(P, size, p, x);
    }
  }

  lemma {:induction false} LiftRaceFree(P: Params, size: nat, p: Proc<MatrixTasks.Task>)
    ensures RaceFree(StrassenLang(P, size), Lift(p)) <==> RaceFree(MatrixTasks.MatrixLang(P, size), p)
    ensures Rank(StrassenLang(P, size), Lift(p)) == Rank(MatrixTasks.MatrixLang(P, size), p)
  {
    hide Run, MatrixTasks.Sensible, MatrixTasks.Run, MatrixTasks.Reading, MatrixTasks.Writing, MatrixTasks.Depth, Writes, Touches;
    match p
    case Done =>
    case Call(_) =>
    case Then(q, r) =>
      LiftRaceFree(P, size, q);
      LiftRaceFree(P, size, r);
    case Par(q, r) =>
      LiftRaceFree(P, size, q);
      LiftRaceFree(P, size, r);
      LiftFootprint(P, size, q);
      LiftFootprint(P, size, r);
  }

  lemma BelowFramed(P: Params, u: MatrixTasks.Task, m: Mem)
    requires MatrixTasks.Sensible(P, |m|, u)
    ensures Framed(StrassenLang(P, |m|), Below(u), m)
  {
    MatrixTasks.RunFramed(P, u, m);
    var rest := MatrixTasks.Run(P, u, m).rest;
    LiftRaceFree(P, |m|, rest);
    LiftSame(P, |m|, u, rest);
    hide MatrixTasks.Run, MatrixTasks.Sensible, MatrixTasks.Reading, MatrixTasks.Writing, MatrixTasks.Depth, RaceFree, Rank;
  }

  lemma LiftSame(P: Params, size: nat, u: MatrixTasks.Task, rest: Proc<MatrixTasks.Task>)
    requires Inside(MatrixTasks.MatrixLang(P, size), rest, Call(u))
    ensures Inside(StrassenLang(P, size), Lift(rest), Call(Below(u)))
  {
    hide StrassenLang, MatrixTasks.MatrixLang, Writes, Touches;
    LiftFootprint(P, size, rest);
    LiftFootprint(P, size, Call(u));
    assert Lift(Call(u)) == Call(Below(u));
  }

  // Every task keeps within its footprint, and depends on nothing else.

  lemma StoredWithin(P: Params, j: Mult, x: nat, hi: nat, m: Mem, y: int)
    requires j.n <= MAX_N && x < hi && 0 <= y < |m|
    ensures !InSums(j, x, hi, y) ==> SumsStored(P, j, x, m)[y] == m[y]
    ensures !InQuads(P, j, x, hi, y) ==> FinalStored(P, j, x, m)[y] == m[y]
  {
    hide QuadAt, Strassen.Place, SumValue, Four, Pick;
    if WhichSum(P, j, x, y, 0) < 8 {
      assert InSums(j, x, hi, y);
    }
    if WhichQuad(P, j, x, y, 0) < 4 {
      assert InQuads(P, j, x, hi, y);
    }
  }

  lemma StoredKeeps(P: Params, t: Task, m: Mem)
    requires Sensible(P, |m|, t) && (t.SetupCells? || t.FinishCells?)
    ensures Keeps(StrassenLang(P, |m|), Call(t), m, Run(P, t, m).mem)
  {
    if t.x < t.hi {
      forall y | 0 <= y < |m| && !Writing(P, t, y) ensures Run(P, t, m).mem[y] == m[y] {
        StoredWithin(P, t.j, t.x, t.hi, m, y);
      }
    }
    hide SumsStored, FinalStored, InSums, InQuads, Above, Reading, Sensible;
  }

  lemma CellsUnder(P: Params, t: Task, m: Mem)
    requires Sensible(P, |m|, t) && (t.SetupCells? || t.FinishCells?)
    ensures Under(StrassenLang(P, |m|), Run(P, t, m).rest, t)
  {
    hide SumsStored, FinalStored, InSums, InQuads, Reading, Child;
    if t.x < t.hi {
      NextChild(P, |m|, t.j, t.x, t.hi);
      ChildUnder(P, |m|, Run(P, t, m).rest.task, t);
    } else {
      assert Under(StrassenLang(P, |m|), Done, t);
    }
  }

  lemma CellsFramed(P: Params, t: Task, m: Mem)
    requires Sensible(P, |m|, t) && (t.SetupCells? || t.FinishCells?)
    ensures Framed(StrassenLang(P, |m|), t, m)
  {
    StoredKeeps(P, t, m);
    CellsUnder(P, t, m);
    hide Run, Sensible, Under, Keeps, Reading, Writing, Depth;
  }

  lemma RunFramed(P: Params, t: Task, m: Mem)
    requires Sensible(P, |m|, t)
    ensures Framed(StrassenLang(P, |m|), t, m)
  {
    match t
    case Multiply(j) =>
      MultiplyUnder(P, |m|, j);
      hide RunMultiply, RunSetup, RunFinish, Sensible, Reading, Writing, Depth, SumsStored, FinalStored;
    case Setup(j, lo, k) =>
      SetupUnder(P, |m|, j, lo, k);
      hide RunMultiply, RunSetup, RunFinish, Sensible, Reading, Writing, Depth, SumsStored, FinalStored;
    case Finish(j, lo, k) =>
      FinishUnder(P, |m|, j, lo, k);
      hide RunMultiply, RunSetup, RunFinish, Sensible, Reading, Writing, Depth, SumsStored, FinalStored;
    case Below(u) => BelowFramed(P, u, m);
    case _ => CellsFramed(P, t, m);
  }

  /** m and m' are the same where t reads or writes. */
  ghost predicate Alike(P: Params, t: Task, m: Mem, m': Mem) {
    |m| == |m'| && forall x :: 0 <= x < |m| && (Reading(t, x) || Writing(P, t, x)) ==> m[x] == m'[x]
  }

  lemma AlikeIsAgree(P: Params, t: Task, m: Mem, m': Mem)
    ensures Agree(StrassenLang(P, |m|), Call(t), m, m') <==> Alike(P, t, m, m')
  {
    hide Reading, Writing, Sensible, Depth, Run;
    var L := StrassenLang(P, |m|);
    assert forall x :: Touches(L, Call(t), x) <==> Reading(t, x) || Writing(P, t, x);
  }

  /** A cell of a slot is read alike. */
  lemma SlotAlike(P: Params, size: nat, j: Mult, t: Task, s: nat, x: nat, m: Mem, m': Mem)
    requires Above(P, size, j) && |m| == size && Alike(P, t, m, m') && s < 23 && x < Cells(j)
    requires (t.SetupCells? && s >= 15) || (t.FinishCells? && s < 11) || (t.FinishCells? && 11 <= s < 15 && t.x <= x < t.hi)
    requires t.j == j
    ensures j.n <= MAX_N && Cell(m, SlotAt(P, j, s) + x) == Cell(m', SlotAt(P, j, s) + x)
  {
    SlotInside(P, size, j, s);
    hide Room, Fits, Big, Size, Strassen.Place, InSums;
    assert j.n <= MAX_N by { FitsInt(P, size, j); }
    if 11 <= s < 15 {
      assert QuadAt(P, j.n, j.c, s - 11) == SlotAt(P, j, s);
      hide QuadAt;
      assert InQuads(P, j, t.x, t.hi, SlotAt(P, j, s) + x);
    }
  }

  lemma SumsAlike(P: Params, t: Task, m: Mem, m': Mem)
    requires Sensible(P, |m|, t) && t.SetupCells? && t.x < t.hi && Alike(P, t, m, m')
    ensures t.j.n <= MAX_N && Alike(P, t, SumsStored(P, t.j, t.x, m), SumsStored(P, t.j, t.x, m'))
  {
    var j := t.j;
    assert j.n <= MAX_N && Above(P, |m|, j) && t.x < Cells(j);
    hide Reading, Writing, SlotAt, Cell, Above, WhichSum, SumValue, Sensible;
    forall k: nat | k < 8 ensures SumValue(P, j, t.x, m, k) == SumValue(P, j, t.x, m', k) {
      SumValueAlike(P, t, m, m', k);
    }
  }

  predicate SameCell(P: Params, j: Mult, s: nat, x: nat, m: Mem, m': Mem) {
    j.n <= MAX_N && s < 23 && Cell(m, SlotAt(P, j, s) + x) == Cell(m', SlotAt(P, j, s) + x)
  }

  lemma OperandsAlike(P: Params, t: Task, m: Mem, m': Mem)
    requires t.SetupCells? && Above(P, |m|, t.j) && t.x < Cells(t.j) && Alike(P, t, m, m')
    ensures forall s: nat :: 15 <= s < 23 ==> SameCell(P, t.j, s, t.x, m, m')
  {
    hide Reading, Writing, SlotAt, Cell, Above, Alike;
    forall s: nat | 15 <= s < 23 ensures SameCell(P, t.j, s, t.x, m, m') {
      SlotAlike(P, |m|, t.j, t, s, t.x, m, m');
    }
  }

  lemma SumValueAlike(P: Params, t: Task, m: Mem, m': Mem, k: nat)
    requires t.SetupCells? && Above(P, |m|, t.j) && t.x < Cells(t.j) && Alike(P, t, m, m')
    ensures t.j.n <= MAX_N && SumValue(P, t.j, t.x, m, k) == SumValue(P, t.j, t.x, m', k)
  {
    hide Reading, Writing, SlotAt, Cell, Above, Strassen.SumAt, Alike;
    OperandsAlike(P, t, m, m');
    var j, x := t.j, t.x;
    assert SameCell(P, j, 15, x, m, m') && SameCell(P, j, 16, x, m, m') && SameCell(P, j, 17, x, m, m') && SameCell(P, j, 18, x, m, m');
    assert SameCell(P, j, 19, x, m, m') && SameCell(P, j, 20, x, m, m') && SameCell(P, j, 21, x, m, m') && SameCell(P, j, 22, x, m, m');
  }

  lemma FinalAlike(P: Params, t: Task, m: Mem, m': Mem)
    requires Sensible(P, |m|, t) && t.FinishCells? && t.x < t.hi && Alike(P, t, m, m')
    ensures t.j.n <= MAX_N && Alike(P, t, FinalStored(P, t.j, t.x, m), FinalStored(P, t.j, t.x, m'))
  {
    var j := t.j;
    assert j.n <= MAX_N;
    forall s: nat | 8 <= s < 15 ensures Cell(m, SlotAt(P, j, s) + t.x) == Cell(m', SlotAt(P, j, s) + t.x) {
      SlotAlike(P, |m|, j, t, s, t.x, m, m');
    }
    hide Reading, Writing, SlotAt, Cell, Above, WhichQuad, Recombined, Pick;
    assert Four(P, j, t.x, m) == Four(P, j, t.x, m');
    hide Four;
  }

  lemma BelowLocal(P: Params, u: MatrixTasks.Task, m: Mem, m': Mem)
    requires MatrixTasks.Sensible(P, |m|, u) && Alike(P, Below(u), m, m')
    ensures MatrixTasks.Run(P, u, m').rest == MatrixTasks.Run(P, u, m).rest
    ensures Alike(P, Below(u), MatrixTasks.Run(P, u, m).mem, MatrixTasks.Run(P, u, m').mem)
  {
    hide MatrixTasks.Run, MatrixTasks.Sensible, MatrixTasks.Reading, MatrixTasks.Writing;
    MatrixTasks.RunLocal(P, u, m, m');
  }

  lemma RunLocal(P: Params, t: Task, m: Mem, m': Mem)
    requires Sensible(P, |m|, t) && Alike(P, t, m, m')
    ensures Run(P, t, m').rest == Run(P, t, m).rest && Alike(P, t, Run(P, t, m).mem, Run(P, t, m').mem)
  {
    match t
    case Below(u) =>
      BelowLocal(P, u, m, m');
      hide Alike, MatrixTasks.Run;
    case SetupCells(_, _, _) =>
      if t.x < t.hi {
        SumsAlike(P, t, m, m');
      }
      hide Alike, SumsStored;
    case FinishCells(_, _, _) =>
      if t.x < t.hi {
        FinalAlike(P, t, m, m');
      }
      hide Alike, FinalStored;
    case _ => hide Alike, RunMultiply, RunSetup, RunFinish;
  }

  lemma TaskLocal(P: Params, t: Task, m: Mem, m': Mem)
    requires Sensible(P, |m|, t) && |m| == |m'|
    ensures Local(StrassenLang(P, |m|), t, m, m')
  {
    var L := StrassenLang(P, |m|);
    if Agree(L, Call(t), m, m') {
      AlikeIsAgree(P, t, m, m');
      RunLocal(P, t, m, m');
      RunFramed(P, t, m);
      AlikeIsAgree(P, t, Run(P, t, m).mem, Run(P, t, m').mem);
      hide Run, Sensible, Agree, Alike;
    }
  }

  /** The tasks write and read only what they say, and whatever runs side by side does not conflict: the parts of the
      sums, the seven products with all they allocate, and the parts of the final additions. */
  lemma StrassenIsSound(P: Params, size: nat)
    ensures Sound(StrassenLang(P, size))
  {
    var L := StrassenLang(P, size);
    forall t: Task, m: Mem | L.ok(t) && |m| == L.size ensures Framed(L, t, m) {
      RunFramed(P, t, m);
    }
    forall t: Task, m: Mem, m': Mem | L.ok(t) && |m| == |m'| == L.size ensures Local(L, t, m, m') {
      TaskLocal(P, t, m, m');
    }
  }

  // ---------------------------------------------------------------- what they compute

  ghost function Result(P: Params, p: Proc<Task>, m: Mem): (r: Mem)
    requires RaceFree(StrassenLang(P, |m|), p)
    ensures |r| == |m|
  {
    StrassenIsSound(P, |m|);
    Serial(StrassenLang(P, |m|), p, m).mem
  }

  lemma ResultOfCall(P: Params, t: Task, m: Mem)
    requires Sensible(P, |m|, t)
    ensures |Run(P, t, m).mem| == |m| && RaceFree(StrassenLang(P, |m|), Run(P, t, m).rest)
    ensures RaceFree(StrassenLang(P, |m|), Call(t))
    ensures Result(P, Call(t), m) == Result(P, Run(P, t, m).rest, Run(P, t, m).mem)
  {
    StrassenIsSound(P, |m|);
    RunFramed(P, t, m);
    hide Run, Sensible, Reading, Writing, Depth;
  }

  lemma ResultOfThen(P: Params, p: Proc<Task>, q: Proc<Task>, m: Mem)
    requires RaceFree(StrassenLang(P, |m|), Then(p, q))
    ensures Result(P, Then(p, q), m) == Result(P, q, Result(P, p, m))
  {
    StrassenIsSound(P, |m|);
    hide StrassenLang;
  }

  lemma ResultOfPar(P: Params, p: Proc<Task>, q: Proc<Task>, m: Mem)
    requires RaceFree(StrassenLang(P, |m|), Par(p, q))
    ensures Result(P, Par(p, q), m) == Result(P, q, Result(P, p, m))
  {
    StrassenIsSound(P, |m|);
    hide StrassenLang;
  }

  lemma ResultOfFour(P: Params, a: Task, b: Task, c: Task, d: Task, m: Mem)
    requires RaceFree(StrassenLang(P, |m|), FourWays(a, b, c, d))
    ensures var L := StrassenLang(P, |m|); RaceFree(L, Call(a)) && RaceFree(L, Call(b)) && RaceFree(L, Call(c)) && RaceFree(L, Call(d))
    ensures Result(P, FourWays(a, b, c, d), m) == Result(P, Call(d), Result(P, Call(c), Result(P, Call(b), Result(P, Call(a), m))))
  {
    hide StrassenLang, Result;
    ResultOfPar(P, Par(Par(Call(a), Call(b)), Call(c)), Call(d), m);
    ResultOfPar(P, Par(Call(a), Call(b)), Call(c), m);
    ResultOfPar(P, Call(a), Call(b), m);
  }

  lemma ResultOfDone(P: Params, m: Mem)
    ensures RaceFree(StrassenLang(P, |m|), Done) && Result(P, Done, m) == m
  {
    StrassenIsSound(P, |m|);
  }

  lemma SerialOfCall<T(!new)>(L: Lang<T>, t: T, m: Mem)
    requires Sound(L) && L.ok(t) && |m| == L.size
    ensures var o := L.run(t, m);
      && |o.mem| == L.size && RaceFree(L, o.rest) && RaceFree(L, Call(t)) && Rank(L, o.rest) < Rank(L, Call(t))
      && Serial(L, Call(t), m) == Final(Serial(L, o.rest, o.mem).mem, Serial(L, o.rest, o.mem).steps + 1)
  {
    assert Framed(L, t, m);
  }

  lemma SameStep(P: Params, u: MatrixTasks.Task, m: Mem)
    requires MatrixTasks.Sensible(P, |m|, u)
    ensures StrassenLang(P, |m|).ok(Below(u)) && MatrixTasks.MatrixLang(P, |m|).ok(u)
    ensures StrassenLang(P, |m|).size == |m| == MatrixTasks.MatrixLang(P, |m|).size
    ensures StrassenLang(P, |m|).run(Below(u), m) == Outcome(Lift(MatrixTasks.Run(P, u, m).rest), MatrixTasks.Run(P, u, m).mem)
    ensures MatrixTasks.MatrixLang(P, |m|).run(u, m) == MatrixTasks.Run(P, u, m)
  {
    hide MatrixTasks.Run, MatrixTasks.Sensible, Lift;
  }

  /** One step of mm_dac_z is the same here. */
  lemma LiftCall(P: Params, u: MatrixTasks.Task, m: Mem)
    requires Sound(StrassenLang(P, |m|)) && Sound(MatrixTasks.MatrixLang(P, |m|)) && MatrixTasks.Sensible(P, |m|, u)
    ensures var o, L, M := MatrixTasks.Run(P, u, m), StrassenLang(P, |m|), MatrixTasks.MatrixLang(P, |m|);
      && |o.mem| == |m| && RaceFree(M, o.rest) && RaceFree(L, Lift(o.rest)) && Rank(M, o.rest) < Rank(M, Call(u))
      && RaceFree(M, Call(u)) && RaceFree(L, Call(Below(u)))
      && Serial(M, Call(u), m) == Final(Serial(M, o.rest, o.mem).mem, Serial(M, o.rest, o.mem).steps + 1)
      && Serial(L, Call(Below(u)), m) == Final(Serial(L, Lift(o.rest), o.mem).mem, Serial(L, Lift(o.rest), o.mem).steps + 1)
  {
    SameStep(P, u, m);
    hide MatrixTasks.Run, MatrixTasks.Sensible, Lift, StrassenLang, MatrixTasks.MatrixLang, Sound, RaceFree, Rank, Serial;
    SerialOfCall(StrassenLang(P, |m|), Below(u), m);
    SerialOfCall(MatrixTasks.MatrixLang(P, |m|), u, m);
  }

  /** mm_dac_z's tasks do here what they do on their own. */
  lemma {:induction false} LiftSerial(P: Params, p: Proc<MatrixTasks.Task>, m: Mem)
    requires Sound(StrassenLang(P, |m|)) && Sound(MatrixTasks.MatrixLang(P, |m|)) && RaceFree(MatrixTasks.MatrixLang(P, |m|), p)
    ensures RaceFree(StrassenLang(P, |m|), Lift(p))
    ensures Serial(StrassenLang(P, |m|), Lift(p), m) == Serial(MatrixTasks.MatrixLang(P, |m|), p, m)
    decreases Rank(MatrixTasks.MatrixLang(P, |m|), p), p
  {
    var L, M := StrassenLang(P, |m|), MatrixTasks.MatrixLang(P, |m|);
    LiftRaceFree(P, |m|, p);
    match p
    case Done =>
    case Call(u) =>
      assert MatrixTasks.Sensible(P, |m|, u);
      hide StrassenLang, MatrixTasks.MatrixLang, Sound, MatrixTasks.Run, MatrixTasks.Sensible, RaceFree, Serial, Rank;
      LiftCall(P, u, m);
      LiftSerial(P, MatrixTasks.Run(P, u, m).rest, MatrixTasks.Run(P, u, m).mem);
    case Then(q, r) =>
      hide StrassenLang, MatrixTasks.MatrixLang, Sound;
      LiftSerial(P, q, m);
      LiftSerial(P, r, Serial(M, q, m).mem);
    case Par(q, r) =>
      hide StrassenLang, MatrixTasks.MatrixLang, Sound, Apart;
      LiftSerial(P, q, m);
      LiftSerial(P, r, Serial(M, q, m).mem);
  }

  /** The call fits, and sa and sb are its operands. */
  ghost predicate Holding(P: Params, j: Mult, m: Mem, sa: seq<int>, sb: seq<int>) {
    Fits(P, |m|, j) && sa == Window(m, j.a, j.n * j.n) && sb == Window(m, j.b, j.n * j.n)
  }

  /** What the slots of the operands and their sums hold. */
  ghost function Val(P: Params, j: Mult, sa: seq<int>, sb: seq<int>, s: nat): (v: seq<int>)
    requires Large(P.power, j.n) && |sa| == |sb| == j.n * j.n && (s < 8 || 15 <= s < 23)
    ensures |v| == Cells(j)
  {
    LargeHalf(P.power, j.n);
    Strassen.SizesOf(Strassen.OperandSums(P.power, j.n, sa, sb), P.power, j.n / 2);
    if s < 8 then Strassen.SumOf(Strassen.OperandSums(P.power, j.n, sa, sb), s)
    else if s == 15 then Quad(j.n, sa, 0, 0) else if s == 16 then Quad(j.n, sa, 0, 1)
    else if s == 17 then Quad(j.n, sa, 1, 0) else if s == 18 then Quad(j.n, sa, 1, 1)
    else if s == 19 then Quad(j.n, sb, 0, 0) else if s == 20 then Quad(j.n, sb, 0, 1)
    else if s == 21 then Quad(j.n, sb, 1, 0) else Quad(j.n, sb, 1, 1)
  }

  /** Slot s holds v. */
  ghost predicate Has(P: Params, j: Mult, m: Mem, s: nat, v: seq<int>) {
    j.n <= MAX_N && s < 23 && Strassen.HeldIn(m, SlotAt(P, j, s), v)
  }

  lemma QuadHeld(P: Params, n: nat, m: Mem, at: nat, q: nat)
    requires Large(P.power, n) && n <= MAX_N && at + n * n <= |m| && q < 4
    ensures n % 2 == 0
    ensures Strassen.HeldIn(m, QuadAt(P, n, at, q), Quad(n, Window(m, at, n * n), if q < 2 then 0 else 1, if q == 0 || q == 2 then 0 else 1))
  {
    hide Size, Corner, Window, Quad, Strassen.HeldIn, Large, Pow2;
    var r, c := if q < 2 then 0 else 1, if q == 0 || q == 2 then 0 else 1;
    LargeHalf(P.power, n);
    CornerIsQuarter(P.power, n, r, c);
    WindowQuad(m, at, n, r, c);
    WindowHeld(m, at + (2 * r + c) * (n / 2 * (n / 2)), n / 2 * (n / 2));
  }

  lemma OperandsHeld(P: Params, j: Mult, m: Mem, sa: seq<int>, sb: seq<int>, s: nat)
    requires Holding(P, j, m, sa, sb) && Big(P, j.n) && 15 <= s < 23
    ensures Large(P.power, j.n) && Has(P, j, m, s, Val(P, j, sa, sb, s))
  {
    BigIsLarge(P, j.n);
    QuadHeld(P, j.n, m, if s < 19 then j.a else j.b, if s < 19 then s - 15 else s - 19);
    hide Room, Size, Big, Window, Quad, Large, Strassen.HeldIn, QuadAt;
  }

  lemma WindowHeld(m: Mem, at: nat, len: nat)
    requires at + len <= |m|
    ensures Strassen.HeldIn(m, at, Window(m, at, len))
  {
  }

  lemma HeldWindow(m: Mem, at: nat, v: seq<int>)
    requires Strassen.HeldIn(m, at, v)
    ensures Window(m, at, |v|) == v
  {
  }

  // The sums.

  function SumSlots(P: Params, j: Mult): (s: Strassen.Offsets)
    requires j.n <= MAX_N
    ensures |s| == 8 && forall k :: 0 <= k < 8 ==> s[k] == SlotAt(P, j, k)
  {
    [SlotAt(P, j, 0), SlotAt(P, j, 1), SlotAt(P, j, 2), SlotAt(P, j, 3), SlotAt(P, j, 4), SlotAt(P, j, 5), SlotAt(P, j, 6), SlotAt(P, j, 7)]
  }

  lemma SumSlotsApart(P: Params, size: nat, j: Mult)
    requires Above(P, size, j)
    ensures j.n <= MAX_N && Strassen.Eight(SumSlots(P, j), Cells(j), size)
  {
    var s := SumSlots(P, j);
    hide Strassen.Place, Fits, Big, Room;
    forall k | 0 <= k < 8 ensures s[k] + Cells(j) <= size {
      SlotInside(P, size, j, k);
    }
    forall k, l | 0 <= k < l < 8 ensures s[k] + Cells(j) <= s[l] {
      Strassen.PlacesApart(k, l, Stride(j.n), Cells(j));
    }
  }

  lemma HeldCell(m: Mem, at: nat, v: seq<int>, x: nat)
    requires Strassen.HeldIn(m, at, v) && x < |v|
    ensures Cell(m, at + x) == v[x]
  {
  }

  /** Cell x of slot s. */
  lemma SlotCell(P: Params, j: Mult, m: Mem, sa: seq<int>, sb: seq<int>, s: nat, x: nat)
    requires Holding(P, j, m, sa, sb) && Big(P, j.n) && 15 <= s < 23 && x < Cells(j)
    ensures Large(P.power, j.n) && j.n <= MAX_N && Cell(m, SlotAt(P, j, s) + x) == Val(P, j, sa, sb, s)[x]
  {
    hide Room, Size, Big, Large, Window, Val, SlotAt;
    OperandsHeld(P, j, m, sa, sb, s);
    HeldCell(m, SlotAt(P, j, s), Val(P, j, sa, sb, s), x);
  }

  lemma ValIsQuad(P: Params, j: Mult, sa: seq<int>, sb: seq<int>)
    requires Large(P.power, j.n) && |sa| == |sb| == j.n * j.n
    ensures var qa, qb := Strassen.QuadsOf(P.power, j.n, sa), Strassen.QuadsOf(P.power, j.n, sb);
      && Val(P, j, sa, sb, 15) == qa.q11 && Val(P, j, sa, sb, 16) == qa.q12 && Val(P, j, sa, sb, 17) == qa.q21 && Val(P, j, sa, sb, 18) == qa.q22
      && Val(P, j, sa, sb, 19) == qb.q11 && Val(P, j, sa, sb, 20) == qb.q12 && Val(P, j, sa, sb, 21) == qb.q21 && Val(P, j, sa, sb, 22) == qb.q22
  {
    hide Size, Quad, Pow2;
  }

  lemma HoldingSizes(P: Params, j: Mult, m: Mem, sa: seq<int>, sb: seq<int>)
    requires Holding(P, j, m, sa, sb)
    ensures j.n <= MAX_N && |sa| == |sb| == j.n * j.n && Fits(P, |m|, j) && Size(P.power, j.n)
  {
  }

  lemma SumValueIs(P: Params, j: Mult, x: nat, m: Mem, sa: seq<int>, sb: seq<int>, k: nat)
    requires Holding(P, j, m, sa, sb) && Big(P, j.n) && x < Cells(j) && k < 8
    ensures Large(P.power, j.n) && j.n <= MAX_N && |sa| == |sb| == j.n * j.n
    ensures SumValue(P, j, x, m, k) == Strassen.SumCell(k, Strassen.QuadsOf(P.power, j.n, sa), Strassen.QuadsOf(P.power, j.n, sb), x)
  {
    hide Room, Size, Big, Window, SlotAt, Cell, Quad, Strassen.SumAt, Holding, Val, Strassen.QuadsOf, Fits, Large;
    HoldingSizes(P, j, m, sa, sb);
    BigIsLarge(P, j.n);
    SlotCell(P, j, m, sa, sb, 15, x);
    SlotCell(P, j, m, sa, sb, 16, x);
    SlotCell(P, j, m, sa, sb, 17, x);
    SlotCell(P, j, m, sa, sb, 18, x);
    SlotCell(P, j, m, sa, sb, 19, x);
    SlotCell(P, j, m, sa, sb, 20, x);
    SlotCell(P, j, m, sa, sb, 21, x);
    SlotCell(P, j, m, sa, sb, 22, x);
    ValIsQuad(P, j, sa, sb);
  }

  lemma SumStoredAt(P: Params, size: nat, j: Mult, x: nat, m: Mem, k: nat)
    requires Above(P, size, j) && |m| == size && x < Cells(j) && k < 8
    ensures j.n <= MAX_N && SlotAt(P, j, k) + x < size && SumsStored(P, j, x, m)[SlotAt(P, j, k) + x] == SumValue(P, j, x, m, k)
  {
    SlotInside(P, size, j, k);
    var y, S := SlotAt(P, j, k) + x, Stride(j.n);
    var r := WhichSum(P, j, x, y, 0);
    hide Strassen.Place, Room, Fits, Big, SumValue;
    if r != k {
      if r < k {
        Strassen.PlacesApart(r, k, S, Cells(j));
      } else if r < 8 {
        Strassen.PlacesApart(k, r, S, Cells(j));
      }
    }
  }

  lemma NotStored(P: Params, j: Mult, x: nat, m: Mem, y: int)
    requires j.n <= MAX_N && 0 <= y < |m| && forall k: nat :: k < 8 ==> y != SlotAt(P, j, k) + x
    ensures SumsStored(P, j, x, m)[y] == m[y]
  {
    hide SumValue, Strassen.Place;
  }

  predicate OtherCell(s: Strassen.Offsets, x: nat, y: int)
    requires |s| == 8
  {
    forall k: nat :: k < 8 ==> y != s[k] + x
  }

  lemma StoredCells(now: Mem, was: Mem, s: Strassen.Offsets, x: nat, len: nat, a: Quads, b: Quads)
    requires |s| == 8 && Strassen.Eight(s, len, |now|) && Strassen.EvenQuads(a, len) && Strassen.EvenQuads(b, len) && x < len && |now| == |was|
    requires forall k: nat :: k < 8 ==> s[k] + x < |now| && now[s[k] + x] == Strassen.SumCell(k, a, b, x)
    requires forall y :: 0 <= y < |now| && OtherCell(s, x, y) ==> now[y] == was[y]
    ensures Strassen.Summed(now, was, s, x, x + 1, len, a, b)
  {
    hide Strassen.SumCell, Strassen.Summed, Strassen.Eight;
    forall y | 0 <= y < |now| && y != s[0] + x && y != s[1] + x && y != s[2] + x && y != s[3] + x
                              && y != s[4] + x && y != s[5] + x && y != s[6] + x && y != s[7] + x
      ensures now[y] == was[y] {
      assert OtherCell(s, x, y);
    }
    Strassen.EightCells(now, was, s, x, len, a, b);
  }

  lemma SumsStoredIs(P: Params, j: Mult, x: nat, m: Mem, sa: seq<int>, sb: seq<int>)
    requires Holding(P, j, m, sa, sb) && Big(P, j.n) && x < Cells(j)
    ensures Large(P.power, j.n) && j.n <= MAX_N && |sa| == |sb| == j.n * j.n
    ensures Strassen.Summed(SumsStored(P, j, x, m), m, SumSlots(P, j), x, x + 1, Cells(j),
                            Strassen.QuadsOf(P.power, j.n, sa), Strassen.QuadsOf(P.power, j.n, sb))
  {
    hide Room, Size, Big, Window, Strassen.SumCell, Strassen.QuadsOf, SumsStored, SumSlots, Holding, Fits, Large, SumValue, Strassen.Summed, Strassen.Eight;
    HoldingSizes(P, j, m, sa, sb);
    BigIsLarge(P, j.n);
    SumSlotsApart(P, |m|, j);
    var qa, qb, now := Strassen.QuadsOf(P.power, j.n, sa), Strassen.QuadsOf(P.power, j.n, sb), SumsStored(P, j, x, m);
    var s := SumSlots(P, j);
    forall k: nat | k < 8 ensures s[k] + x < |now| && now[s[k] + x] == Strassen.SumCell(k, qa, qb, x) {
      SumStoredAt(P, |m|, j, x, m, k);
      SumValueIs(P, j, x, m, sa, sb, k);
    }
    forall y | 0 <= y < |now| && OtherCell(s, x, y) ensures now[y] == m[y] {
      forall k: nat | k < 8 ensures y != SlotAt(P, j, k) + x {
        assert s[k] == SlotAt(P, j, k);
      }
      NotStored(P, j, x, m, y);
    }
    hide SlotAt;
    StoredCells(now, m, s, x, Cells(j), qa, qb);
  }

  /** Storing sums leaves the operands alone. */
  lemma SummedHolds(P: Params, j: Mult, now: Mem, was: Mem, lo: nat, hi: nat, sa: seq<int>, sb: seq<int>)
    requires Holding(P, j, was, sa, sb) && Big(P, j.n) && Large(P.power, j.n) && |sa| == |sb| == j.n * j.n && lo <= hi <= Cells(j)
    requires Strassen.Summed(now, was, SumSlots(P, j), lo, hi, Cells(j), Strassen.QuadsOf(P.power, j.n, sa), Strassen.QuadsOf(P.power, j.n, sb))
    ensures Holding(P, j, now, sa, sb)
    ensures forall y :: 0 <= y < |was| && !Span(y, j.t, Room(P, j.n)) ==> now[y] == was[y]
  {
    var s := SumSlots(P, j);
    hide Room, Size, Big, Strassen.QuadsOf, Strassen.SumCell, SlotAt, SumSlots, Strassen.Place;
    forall y | 0 <= y < |was| && !Span(y, j.t, Room(P, j.n)) ensures now[y] == was[y] {
      if Strassen.Among(s, lo, hi, y) {
        var k :| 0 <= k < |s| && s[k] + lo <= y < s[k] + hi;
        SlotInside(P, |was|, j, k);
        BigIsLarge(P, j.n);
      }
    }
    forall y | 0 <= y < |was| && Operand(j, y) ensures now[y] == was[y] {
      ThreeParts(P, |was|, j, y);
    }
    MatrixTasks.SameSlice(now, was, j.a, j.n * j.n);
    MatrixTasks.SameSlice(now, was, j.b, j.n * j.n);
  }

  /** The sums' cells lo..hi are in place. */
  ghost predicate SumsIn(P: Params, j: Mult, now: Mem, was: Mem, lo: nat, hi: nat, sa: seq<int>, sb: seq<int>) {
    && Large(P.power, j.n) && j.n <= MAX_N && |sa| == |sb| == j.n * j.n && lo <= hi <= Cells(j)
    && Strassen.Summed(now, was, SumSlots(P, j), lo, hi, Cells(j), Strassen.QuadsOf(P.power, j.n, sa), Strassen.QuadsOf(P.power, j.n, sb))
  }

  lemma SumsInTwice(P: Params, j: Mult, w0: Mem, w1: Mem, w2: Mem, lo: nat, mid: nat, hi: nat, sa: seq<int>, sb: seq<int>)
    requires Above(P, |w0|, j) && SumsIn(P, j, w1, w0, lo, mid, sa, sb) && SumsIn(P, j, w2, w1, mid, hi, sa, sb)
    ensures SumsIn(P, j, w2, w0, lo, hi, sa, sb)
  {
    SumSlotsApart(P, |w0|, j);
    hide Strassen.QuadsOf, SumSlots, Strassen.Summed, Above, Large;
    Strassen.SummedTwice(w0, w1, w2, SumSlots(P, j), lo, mid, hi, Cells(j), Strassen.QuadsOf(P.power, j.n, sa), Strassen.QuadsOf(P.power, j.n, sb));
  }

  lemma NoSumsYet(P: Params, j: Mult, m: Mem, lo: nat, sa: seq<int>, sb: seq<int>)
    requires Holding(P, j, m, sa, sb) && Big(P, j.n) && lo <= Cells(j)
    ensures SumsIn(P, j, m, m, lo, lo, sa, sb)
  {
    BigIsLarge(P, j.n);
    hide Size, Room, Window, SumSlots, Strassen.QuadsOf, Strassen.Summed;
    Strassen.NothingSummed(m, SumSlots(P, j), lo, Cells(j), Strassen.QuadsOf(P.power, j.n, sa), Strassen.QuadsOf(P.power, j.n, sb));
  }

  lemma SetupCellsResult(P: Params, j: Mult, x: nat, hi: nat, m: Mem)
    requires Above(P, |m|, j) && x <= hi <= Cells(j)
    ensures j.n <= MAX_N && RaceFree(StrassenLang(P, |m|), Call(SetupCells(j, x, hi)))
    ensures x < hi ==> RaceFree(StrassenLang(P, |m|), Call(SetupCells(j, x + 1, hi)))
    ensures Result(P, Call(SetupCells(j, x, hi)), m)
         == if x < hi then Result(P, Call(SetupCells(j, x + 1, hi)), SumsStored(P, j, x, m)) else m
  {
    ResultOfCall(P, SetupCells(j, x, hi), m);
    ResultOfDone(P, m);
    hide StrassenLang, Result, SumsStored, Above;
  }

  /** p puts cells lo..hi of the sums in place. */
  ghost predicate Adds(P: Params, j: Mult, p: Proc<Task>, m: Mem, lo: nat, hi: nat, sa: seq<int>, sb: seq<int>) {
    && RaceFree(StrassenLang(P, |m|), p)
    && SumsIn(P, j, Result(P, p, m), m, lo, hi, sa, sb) && Holding(P, j, Result(P, p, m), sa, sb)
  }

  lemma AddsBoth(P: Params, j: Mult, p: Proc<Task>, q: Proc<Task>, m: Mem, lo: nat, mid: nat, hi: nat, sa: seq<int>, sb: seq<int>)
    requires Above(P, |m|, j) && RaceFree(StrassenLang(P, |m|), Par(p, q))
    requires Adds(P, j, p, m, lo, mid, sa, sb) && Adds(P, j, q, Result(P, p, m), mid, hi, sa, sb)
    ensures Adds(P, j, Par(p, q), m, lo, hi, sa, sb)
  {
    hide StrassenLang, Result, SumsIn, Holding, Above;
    ResultOfPar(P, p, q, m);
    SumsInTwice(P, j, m, Result(P, p, m), Result(P, q, Result(P, p, m)), lo, mid, hi, sa, sb);
  }

  lemma {:induction false} SetupCellsDone(P: Params, j: Mult, x: nat, hi: nat, m: Mem, sa: seq<int>, sb: seq<int>)
    requires Holding(P, j, m, sa, sb) && Big(P, j.n) && x <= hi <= Cells(j)
    ensures Adds(P, j, Call(SetupCells(j, x, hi)), m, x, hi, sa, sb)
    decreases hi - x
  {
    hide StrassenLang, Result, SumsStored, Big, Holding, Fits, Strassen.Summed, SumSlots, Large;
    HoldingSizes(P, j, m, sa, sb);
    SetupCellsResult(P, j, x, hi, m);
    if x < hi {
      var m1 := SumsStored(P, j, x, m);
      SumsStoredIs(P, j, x, m, sa, sb);
      SummedHolds(P, j, m1, m, x, x + 1, sa, sb);
      SetupCellsDone(P, j, x + 1, hi, m1, sa, sb);
      var r := Result(P, Call(SetupCells(j, x + 1, hi)), m1);
      SumsInTwice(P, j, m, m1, r, x, x + 1, hi, sa, sb);
    } else {
      NoSumsYet(P, j, m, x, sa, sb);
    }
  }

  lemma SetupResult(P: Params, j: Mult, lo: nat, k: nat, m: Mem)
    requires Part(P, |m|, j, lo, k)
    ensures k <= MAX_N && RaceFree(StrassenLang(P, |m|), Call(Setup(j, lo, k))) && RaceFree(StrassenLang(P, |m|), RunSetup(P, j, lo, k))
    ensures Result(P, Call(Setup(j, lo, k)), m) == Result(P, RunSetup(P, j, lo, k), m)
  {
    ResultOfCall(P, Setup(j, lo, k), m);
    hide StrassenLang, Result, RunSetup, Part;
  }

  /** The four parts of a part. */
  function FourSetups(j: Mult, lo: nat, h: nat): Proc<Task> {
    FourWays(Setup(j, lo, h), Setup(j, lo + h * h, h), Setup(j, lo + 2 * (h * h), h), Setup(j, lo + 3 * (h * h), h))
  }

  ghost predicate FourFit(P: Params, size: nat, j: Mult, lo: nat, h: nat) {
    Above(P, size, j) && Size(P.power, h) && h <= MAX_N && lo + 4 * (h * h) <= Cells(j)
  }

  lemma PartsOfFour(P: Params, size: nat, j: Mult, lo: nat, h: nat, q: nat)
    requires FourFit(P, size, j, lo, h) && q < 4
    ensures Part(P, size, j, lo + q * (h * h), h)
  {
    hide Size, Above;
    QuarterFits(h * h, q);
  }

  lemma RunSetupIs(P: Params, j: Mult, lo: nat, k: nat)
    requires Size(P.power, k) && k <= MAX_N
    ensures k == Pow2(P.power) ==> RunSetup(P, j, lo, k) == Call(SetupCells(j, lo, lo + k * k))
    ensures k != Pow2(P.power) ==>
      Size(P.power, k / 2) && k / 2 < k && k * k == 4 * (k / 2 * (k / 2)) && RunSetup(P, j, lo, k) == FourSetups(j, lo, k / 2)
  {
    hide Size, QuadAt, Large, Pow2;
    if k != Pow2(P.power) {
      AboveABlock(P.power, k);
      QuarterRange(P, k, lo, 0);
      QuarterRange(P, k, lo, 1);
      QuarterRange(P, k, lo, 2);
      QuarterRange(P, k, lo, 3);
    }
  }

  lemma {:induction false} SetupDone(P: Params, j: Mult, lo: nat, k: nat, m: Mem, sa: seq<int>, sb: seq<int>)
    requires Holding(P, j, m, sa, sb) && Part(P, |m|, j, lo, k)
    ensures Adds(P, j, Call(Setup(j, lo, k)), m, lo, lo + k * k, sa, sb)
    decreases k, 1
  {
    hide StrassenLang, Result, Fits, RunSetup, Size, SumsIn, Holding, FourSetups, Pow2, Big;
    SetupResult(P, j, lo, k, m);
    RunSetupIs(P, j, lo, k);
    if k == Pow2(P.power) {
      SetupCellsDone(P, j, lo, lo + k * k, m, sa, sb);
    } else {
      FourSetupsDone(P, j, lo, k / 2, m, sa, sb);
    }
  }

  lemma {:induction false} SetupNext(P: Params, j: Mult, p: Proc<Task>, lo: nat, at: nat, hi: nat, h: nat, m: Mem, sa: seq<int>, sb: seq<int>)
    requires hi == at + h * h && RaceFree(StrassenLang(P, |m|), Par(p, Call(Setup(j, at, h)))) && Part(P, |m|, j, at, h) && Adds(P, j, p, m, lo, at, sa, sb)
    ensures Adds(P, j, Par(p, Call(Setup(j, at, h))), m, lo, hi, sa, sb)
    decreases h, 2
  {
    var m1 := After(P, j, p, m, lo, at, sa, sb);
    hide StrassenLang, Result, Holding, Adds, RaceFree, Size, Above;
    SetupDone(P, j, at, h, m1, sa, sb);
    AddsBoth(P, j, p, Call(Setup(j, at, h)), m, lo, at, hi, sa, sb);
  }

  lemma After(P: Params, j: Mult, p: Proc<Task>, m: Mem, lo: nat, hi: nat, sa: seq<int>, sb: seq<int>) returns (m': Mem)
    requires Adds(P, j, p, m, lo, hi, sa, sb)
    ensures RaceFree(StrassenLang(P, |m|), p) && m' == Result(P, p, m) && |m'| == |m| && Holding(P, j, m', sa, sb)
  {
    m' := Result(P, p, m);
  }

  lemma FourRaceFree<T>(L: Lang<T>, a: Proc<T>, b: Proc<T>, c: Proc<T>, d: Proc<T>)
    requires RaceFree(L, Par(Par(Par(a, b), c), d))
    ensures RaceFree(L, Par(Par(a, b), c)) && RaceFree(L, Par(a, b))
  {
    hide Apart;
  }

  lemma {:induction false} FourSetupsDone(P: Params, j: Mult, lo: nat, h: nat, m: Mem, sa: seq<int>, sb: seq<int>)
    requires RaceFree(StrassenLang(P, |m|), FourSetups(j, lo, h)) && FourFit(P, |m|, j, lo, h) && Holding(P, j, m, sa, sb)
    ensures Adds(P, j, FourSetups(j, lo, h), m, lo, lo + 4 * (h * h), sa, sb)
    decreases h, 3
  {
    hide StrassenLang, RaceFree, FourFit, Part, Holding, Above, Adds;
    var hh: nat := h * h;
    var a, b, c, d := Call(Setup(j, lo, h)), Call(Setup(j, lo + hh, h)), Call(Setup(j, lo + 2 * hh, h)), Call(Setup(j, lo + 3 * hh, h));
    FourRaceFree(StrassenLang(P, |m|), a, b, c, d);
    PartsOfFour(P, |m|, j, lo, h, 0);
    PartsOfFour(P, |m|, j, lo, h, 1);
    PartsOfFour(P, |m|, j, lo, h, 2);
    PartsOfFour(P, |m|, j, lo, h, 3);
    SetupDone(P, j, lo, h, m, sa, sb);
    SetupNext(P, j, a, lo, lo + hh, lo + 2 * hh, h, m, sa, sb);
    SetupNext(P, j, Par(a, b), lo, lo + 2 * hh, lo + 3 * hh, h, m, sa, sb);
    SetupNext(P, j, Par(Par(a, b), c), lo, lo + 3 * hh, lo + 4 * hh, h, m, sa, sb);
  }

  /** After setup_add the scratch space holds the eight sums. */
  lemma SumsHeld(P: Params, j: Mult, now: Mem, was: Mem, sa: seq<int>, sb: seq<int>, k: nat)
    requires SumsIn(P, j, now, was, 0, Cells(j), sa, sb) && Above(P, |was|, j) && k < 8
    ensures Has(P, j, now, k, Val(P, j, sa, sb, k))
  {
    hide Size, SlotAt, Val, Strassen.SumOf, SumsOf, Strassen.SumCell, Fits, Big, SumSlots, Strassen.QuadsOf, Large;
    LargeHalf(P.power, j.n);
    SlotInside(P, |was|, j, k);
    var qa, qb, v := Strassen.QuadsOf(P.power, j.n, sa), Strassen.QuadsOf(P.power, j.n, sb), Val(P, j, sa, sb, k);
    ValIsSum(P, j, sa, sb, k);
    assert SumSlots(P, j)[k] == SlotAt(P, j, k);
    forall x | 0 <= x < |v| ensures now[SlotAt(P, j, k) + x] == v[x] {
      Strassen.SumIsSum(P.power, j.n / 2, qa, qb, k, x);
    }
  }

  lemma ValIsSum(P: Params, j: Mult, sa: seq<int>, sb: seq<int>, k: nat)
    requires Large(P.power, j.n) && |sa| == |sb| == j.n * j.n && k < 8
    ensures var qa, qb := Strassen.QuadsOf(P.power, j.n, sa), Strassen.QuadsOf(P.power, j.n, sb);
      Val(P, j, sa, sb, k) == Strassen.SumOf(SumsOf(P.power, j.n / 2, qa, qb), k)
  {
    hide Strassen.SumOf, SumsOf, Strassen.QuadsOf, Size;
  }

  // The final additions.

  function QuadSlots(P: Params, j: Mult): (c: Strassen.Offsets)
    requires j.n <= MAX_N
    ensures |c| == 4 && forall q :: 0 <= q < 4 ==> c[q] == SlotAt(P, j, 11 + q)
  {
    [SlotAt(P, j, 11), SlotAt(P, j, 12), SlotAt(P, j, 13), SlotAt(P, j, 14)]
  }

  lemma QuadSlotsApart(P: Params, size: nat, j: Mult)
    requires Above(P, size, j)
    ensures j.n <= MAX_N && Strassen.Apart(QuadSlots(P, j), Cells(j), size)
  {
    BigIsLarge(P, j.n);
    var c := QuadSlots(P, j);
    hide Strassen.Place, Fits, Big, Room, QuadAt, Size;
    assert j.n <= MAX_N by { FitsInt(P, size, j); }
    forall q | 0 <= q < 4 ensures c[q] + Cells(j) <= size {
      SlotInside(P, size, j, 11 + q);
    }
    forall q, r | 0 <= q < r < 4 ensures c[q] + Cells(j) <= c[r] {
      QuadAtIs(P, j.n, j.c, q);
      QuadAtIs(P, j.n, j.c, r);
      PlaceInside(q, r, Cells(j));
    }
  }

  /** M2, M5 and T1 are in place. */
  ghost predicate Products3(P: Params, j: Mult, m: Mem, p1: seq<int>, p5: seq<int>, p6: seq<int>) {
    && Above(P, |m|, j) && |p1| == |p5| == |p6| == Cells(j)
    && Has(P, j, m, 8, p1) && Has(P, j, m, 9, p5) && Has(P, j, m, 10, p6)
  }

  /** Cells lo..hi of the output's quadrants are combined with them. */
  ghost predicate CombinedIn(P: Params, j: Mult, now: Mem, was: Mem, lo: nat, hi: nat, p1: seq<int>, p5: seq<int>, p6: seq<int>) {
    && |p1| == |p5| == |p6| == Cells(j) && lo <= hi <= Cells(j) && j.n <= MAX_N && Strassen.Apart(QuadSlots(P, j), Cells(j), |was|)
    && Strassen.Combined(now, was, QuadSlots(P, j), lo, hi, Cells(j), p1, p5, p6)
  }

  lemma FourIs(P: Params, j: Mult, x: nat, m: Mem, p1: seq<int>, p5: seq<int>, p6: seq<int>)
    requires Products3(P, j, m, p1, p5, p6) && x < Cells(j) && j.n <= MAX_N && Strassen.Apart(QuadSlots(P, j), Cells(j), |m|)
    ensures var c := QuadSlots(P, j);
      && c[0] + x < |m| && c[1] + x < |m| && c[2] + x < |m| && c[3] + x < |m|
      && Four(P, j, x, m) == Recombined(p1[x], m[c[0] + x], m[c[1] + x], m[c[2] + x], p5[x], p6[x], m[c[3] + x])
  {
    var c := QuadSlots(P, j);
    hide SlotAt, Recombined, Above;
    HeldCell(m, SlotAt(P, j, 8), p1, x);
    HeldCell(m, SlotAt(P, j, 9), p5, x);
    HeldCell(m, SlotAt(P, j, 10), p6, x);
  }

  lemma WhichQuadIs(P: Params, size: nat, j: Mult, x: nat, q: nat)
    requires Above(P, size, j) && x < Cells(j) && q < 4
    ensures j.n <= MAX_N && WhichQuad(P, j, x, SlotAt(P, j, 11 + q) + x, 0) == q
  {
    assert j.n <= MAX_N by { FitsInt(P, size, j); }
    var y := SlotAt(P, j, 11 + q) + x;
    var r := WhichQuad(P, j, x, y, 0);
    assert y == QuadAt(P, j.n, j.c, q) + x;
    hide QuadAt, Room, Fits, Big;
    if r < q {
      SlotsApart(P, size, j, 11 + q, 11 + r);
    } else if q < r < 4 {
      SlotsApart(P, size, j, 11 + q, 11 + r);
    }
  }

  lemma QuadStoredAt(P: Params, size: nat, j: Mult, x: nat, m: Mem, q: nat)
    requires Above(P, size, j) && |m| == size && x < Cells(j) && q < 4
    ensures j.n <= MAX_N && SlotAt(P, j, 11 + q) + x < size
    ensures FinalStored(P, j, x, m)[SlotAt(P, j, 11 + q) + x] == Pick(Four(P, j, x, m), q)
  {
    hide SlotAt, Four, Pick, Fits, Big;
    SlotInside(P, size, j, 11 + q);
    WhichQuadIs(P, size, j, x, q);
  }

  lemma NotCombined(P: Params, j: Mult, x: nat, m: Mem, y: int)
    requires j.n <= MAX_N && 0 <= y < |m| && forall q: nat :: q < 4 ==> y != QuadAt(P, j.n, j.c, q) + x
    ensures FinalStored(P, j, x, m)[y] == m[y]
  {
    hide Four, QuadAt;
  }

  lemma OutputAlone(P: Params, j: Mult, m: Mem, p1: seq<int>, p5: seq<int>, p6: seq<int>)
    requires Products3(P, j, m, p1, p5, p6)
    ensures Above(P, |m|, j) && j.n <= MAX_N && |p1| == |p5| == |p6| == Cells(j) && Strassen.Apart(QuadSlots(P, j), Cells(j), |m|)
  {
    QuadSlotsApart(P, |m|, j);
  }

  lemma FinalStoredIs(P: Params, j: Mult, x: nat, m: Mem, p1: seq<int>, p5: seq<int>, p6: seq<int>)
    requires Products3(P, j, m, p1, p5, p6) && x < Cells(j)
    ensures j.n <= MAX_N && CombinedIn(P, j, FinalStored(P, j, x, m), m, x, x + 1, p1, p5, p6)
  {
    hide Above, Four, Recombined, FinalStored, Strassen.Combined, Strassen.Apart, Products3, SlotAt, QuadAt, QuadSlots;
    OutputAlone(P, j, m, p1, p5, p6);
    FourIs(P, j, x, m, p1, p5, p6);
    QuadStoredAt(P, |m|, j, x, m, 0);
    QuadStoredAt(P, |m|, j, x, m, 1);
    QuadStoredAt(P, |m|, j, x, m, 2);
    QuadStoredAt(P, |m|, j, x, m, 3);
    var now, c := FinalStored(P, j, x, m), QuadSlots(P, j);
    forall y | 0 <= y < |now| && y != c[0] + x && y != c[1] + x && y != c[2] + x && y != c[3] + x ensures now[y] == m[y] {
      forall q: nat | q < 4 ensures y != QuadAt(P, j.n, j.c, q) + x {
        QuadSlotIs(P, j, q);
      }
      NotCombined(P, j, x, m, y);
    }
    Strassen.FourCells(now, m, c, x, Cells(j), p1, p5, p6);
  }

  lemma QuadSlotIs(P: Params, j: Mult, q: nat)
    requires j.n <= MAX_N && q < 4
    ensures QuadSlots(P, j)[q] == QuadAt(P, j.n, j.c, q)
  {
    assert QuadSlots(P, j)[q] == SlotAt(P, j, 11 + q);
  }

  /** The final additions leave everything but the output alone. */
  lemma CombinedHolds(P: Params, j: Mult, now: Mem, was: Mem, lo: nat, hi: nat, p1: seq<int>, p5: seq<int>, p6: seq<int>)
    requires Products3(P, j, was, p1, p5, p6) && CombinedIn(P, j, now, was, lo, hi, p1, p5, p6)
    ensures Products3(P, j, now, p1, p5, p6)
    ensures |now| == |was| && forall y :: 0 <= y < |was| && !Span(y, j.c, j.n * j.n) ==> now[y] == was[y]
  {
    var c := QuadSlots(P, j);
    assert Above(P, |was|, j);
    hide Room, Fits, Big, Recombined, SlotAt, QuadSlots, Strassen.Apart;
    forall y | 0 <= y < |was| && !Span(y, j.c, j.n * j.n) ensures now[y] == was[y] {
      if Strassen.Among(c, lo, hi, y) {
        var q :| 0 <= q < |c| && c[q] + lo <= y < c[q] + hi;
        SlotInside(P, |was|, j, 11 + q);
      }
    }
    hide Strassen.Combined;
    KeptOutside(P, j, now, was, 8, p1);
    KeptOutside(P, j, now, was, 9, p5);
    KeptOutside(P, j, now, was, 10, p6);
  }

  /** What a slot of the scratch space holds is kept if only the output changes. */
  lemma KeptOutside(P: Params, j: Mult, now: Mem, was: Mem, s: nat, v: seq<int>)
    requires Above(P, |was|, j) && s < 11 && |v| == Cells(j) && Has(P, j, was, s, v)
    requires |now| == |was| && forall y :: 0 <= y < |was| && !Span(y, j.c, j.n * j.n) ==> now[y] == was[y]
    ensures Has(P, j, now, s, v)
  {
    SlotInside(P, |was|, j, s);
    BigIsLarge(P, j.n);
    hide Room, Fits, Big, SlotAt, Size, Strassen.Place;
    var at := SlotAt(P, j, s);
    forall x | 0 <= x < |v| ensures now[at + x] == v[x] {
      ThreeParts(P, |was|, j, at + x);
    }
  }

  lemma CombinedInTwice(P: Params, j: Mult, w0: Mem, w1: Mem, w2: Mem, lo: nat, mid: nat, hi: nat, p1: seq<int>, p5: seq<int>, p6: seq<int>)
    requires |w1| == |w0| && CombinedIn(P, j, w1, w0, lo, mid, p1, p5, p6) && CombinedIn(P, j, w2, w1, mid, hi, p1, p5, p6)
    ensures CombinedIn(P, j, w2, w0, lo, hi, p1, p5, p6)
  {
    hide QuadSlots, Strassen.Combined, Strassen.Apart;
    Strassen.CombinedTwice(w0, w1, w2, QuadSlots(P, j), lo, mid, hi, Cells(j), p1, p5, p6);
  }

  lemma NothingCombinedYet(P: Params, j: Mult, m: Mem, lo: nat, p1: seq<int>, p5: seq<int>, p6: seq<int>)
    requires Products3(P, j, m, p1, p5, p6) && lo <= Cells(j)
    ensures CombinedIn(P, j, m, m, lo, lo, p1, p5, p6)
  {
    QuadSlotsApart(P, |m|, j);
    hide QuadSlots, Strassen.Combined, Strassen.Apart, Above, Has;
    Strassen.NothingCombined(m, QuadSlots(P, j), lo, Cells(j), p1, p5, p6);
  }

  /** p combines cells lo..hi. */
  ghost predicate Combines(P: Params, j: Mult, p: Proc<Task>, m: Mem, lo: nat, hi: nat, p1: seq<int>, p5: seq<int>, p6: seq<int>) {
    && RaceFree(StrassenLang(P, |m|), p)
    && CombinedIn(P, j, Result(P, p, m), m, lo, hi, p1, p5, p6) && Products3(P, j, Result(P, p, m), p1, p5, p6)
  }

  lemma CombinesBoth(P: Params, j: Mult, p: Proc<Task>, q: Proc<Task>, m: Mem, lo: nat, mid: nat, hi: nat, p1: seq<int>, p5: seq<int>, p6: seq<int>)
    requires RaceFree(StrassenLang(P, |m|), Par(p, q))
    requires Combines(P, j, p, m, lo, mid, p1, p5, p6) && Combines(P, j, q, Result(P, p, m), mid, hi, p1, p5, p6)
    ensures Combines(P, j, Par(p, q), m, lo, hi, p1, p5, p6)
  {
    hide StrassenLang, Result, CombinedIn, Products3;
    ResultOfPar(P, p, q, m);
    CombinedInTwice(P, j, m, Result(P, p, m), Result(P, q, Result(P, p, m)), lo, mid, hi, p1, p5, p6);
  }

  lemma FinishCellsResult(P: Params, j: Mult, x: nat, hi: nat, m: Mem)
    requires Above(P, |m|, j) && x <= hi <= Cells(j)
    ensures j.n <= MAX_N && RaceFree(StrassenLang(P, |m|), Call(FinishCells(j, x, hi)))
    ensures x < hi ==> RaceFree(StrassenLang(P, |m|), Call(FinishCells(j, x + 1, hi)))
    ensures Result(P, Call(FinishCells(j, x, hi)), m)
         == if x < hi then Result(P, Call(FinishCells(j, x + 1, hi)), FinalStored(P, j, x, m)) else m
  {
    ResultOfCall(P, FinishCells(j, x, hi), m);
    ResultOfDone(P, m);
    hide StrassenLang, Result, FinalStored, Above;
  }

  lemma {:induction false} FinishCellsDone(P: Params, j: Mult, x: nat, hi: nat, m: Mem, p1: seq<int>, p5: seq<int>, p6: seq<int>)
    requires Products3(P, j, m, p1, p5, p6) && x <= hi <= Cells(j)
    ensures Combines(P, j, Call(FinishCells(j, x, hi)), m, x, hi, p1, p5, p6)
    decreases hi - x
  {
    hide StrassenLang, Result, FinalStored, Above, Products3, CombinedIn, Strassen.Apart;
    OutputAlone(P, j, m, p1, p5, p6);
    FinishCellsResult(P, j, x, hi, m);
    if x < hi {
      var m1 := FinalStored(P, j, x, m);
      FinalStoredIs(P, j, x, m, p1, p5, p6);
      CombinedHolds(P, j, m1, m, x, x + 1, p1, p5, p6);
      FinishCellsDone(P, j, x + 1, hi, m1, p1, p5, p6);
      CombinedInTwice(P, j, m, m1, Result(P, Call(FinishCells(j, x + 1, hi)), m1), x, x + 1, hi, p1, p5, p6);
    } else {
      NothingCombinedYet(P, j, m, x, p1, p5, p6);
    }
  }

  function FourFinishes(j: Mult, lo: nat, h: nat): Proc<Task> {
    FourWays(Finish(j, lo, h), Finish(j, lo + h * h, h), Finish(j, lo + 2 * (h * h), h), Finish(j, lo + 3 * (h * h), h))
  }

  lemma RunFinishIs(P: Params, j: Mult, lo: nat, k: nat)
    requires Size(P.power, k) && k <= MAX_N
    ensures k == Pow2(P.power) ==> RunFinish(P, j, lo, k) == Call(FinishCells(j, lo, lo + k * k))
    ensures k != Pow2(P.power) ==>
      Size(P.power, k / 2) && k / 2 < k && k * k == 4 * (k / 2 * (k / 2)) && RunFinish(P, j, lo, k) == FourFinishes(j, lo, k / 2)
  {
    hide Size, QuadAt, Large, Pow2;
    if k != Pow2(P.power) {
      AboveABlock(P.power, k);
      QuarterRange(P, k, lo, 0);
      QuarterRange(P, k, lo, 1);
      QuarterRange(P, k, lo, 2);
      QuarterRange(P, k, lo, 3);
    }
  }

  lemma FinishResult(P: Params, j: Mult, lo: nat, k: nat, m: Mem)
    requires Part(P, |m|, j, lo, k)
    ensures k <= MAX_N && RaceFree(StrassenLang(P, |m|), Call(Finish(j, lo, k))) && RaceFree(StrassenLang(P, |m|), RunFinish(P, j, lo, k))
    ensures Result(P, Call(Finish(j, lo, k)), m) == Result(P, RunFinish(P, j, lo, k), m)
  {
    ResultOfCall(P, Finish(j, lo, k), m);
    hide StrassenLang, Result, RunFinish, Part;
  }

  lemma {:induction false} FinishDone(P: Params, j: Mult, lo: nat, k: nat, m: Mem, p1: seq<int>, p5: seq<int>, p6: seq<int>)
    requires Products3(P, j, m, p1, p5, p6) && Part(P, |m|, j, lo, k)
    ensures Combines(P, j, Call(Finish(j, lo, k)), m, lo, lo + k * k, p1, p5, p6)
    decreases k, 1
  {
    hide StrassenLang, Result, Fits, RunFinish, Size, CombinedIn, Products3, FourFinishes, Pow2, Big;
    FinishResult(P, j, lo, k, m);
    RunFinishIs(P, j, lo, k);
    if k == Pow2(P.power) {
      FinishCellsDone(P, j, lo, lo + k * k, m, p1, p5, p6);
    } else {
      FourFinishesDone(P, j, lo, k / 2, m, p1, p5, p6);
    }
  }

  lemma {:induction false} FinishNext(P: Params, j: Mult, p: Proc<Task>, lo: nat, at: nat, hi: nat, h: nat, m: Mem, p1: seq<int>, p5: seq<int>, p6: seq<int>)
    requires hi == at + h * h && RaceFree(StrassenLang(P, |m|), Par(p, Call(Finish(j, at, h)))) && Part(P, |m|, j, at, h) && Combines(P, j, p, m, lo, at, p1, p5, p6)
    ensures Combines(P, j, Par(p, Call(Finish(j, at, h))), m, lo, hi, p1, p5, p6)
    decreases h, 2
  {
    var m1 := AfterFinish(P, j, p, m, lo, at, p1, p5, p6);
    hide StrassenLang, Result, Products3, Combines, RaceFree, Size, Above;
    FinishDone(P, j, at, h, m1, p1, p5, p6);
    CombinesBoth(P, j, p, Call(Finish(j, at, h)), m, lo, at, hi, p1, p5, p6);
  }

  lemma AfterFinish(P: Params, j: Mult, p: Proc<Task>, m: Mem, lo: nat, hi: nat, p1: seq<int>, p5: seq<int>, p6: seq<int>) returns (m': Mem)
    requires Combines(P, j, p, m, lo, hi, p1, p5, p6)
    ensures RaceFree(StrassenLang(P, |m|), p) && m' == Result(P, p, m) && |m'| == |m| && Products3(P, j, m', p1, p5, p6)
  {
    m' := Result(P, p, m);
  }

  lemma {:induction false} FourFinishesDone(P: Params, j: Mult, lo: nat, h: nat, m: Mem, p1: seq<int>, p5: seq<int>, p6: seq<int>)
    requires RaceFree(StrassenLang(P, |m|), FourFinishes(j, lo, h)) && FourFit(P, |m|, j, lo, h) && Products3(P, j, m, p1, p5, p6)
    ensures Combines(P, j, FourFinishes(j, lo, h), m, lo, lo + 4 * (h * h), p1, p5, p6)
    decreases h, 3
  {
    hide StrassenLang, RaceFree, FourFit, Part, Products3, Above, Combines;
    var hh: nat := h * h;
    var a, b, c, d := Call(Finish(j, lo, h)), Call(Finish(j, lo + hh, h)), Call(Finish(j, lo + 2 * hh, h)), Call(Finish(j, lo + 3 * hh, h));
    FourRaceFree(StrassenLang(P, |m|), a, b, c, d);
    PartsOfFour(P, |m|, j, lo, h, 0);
    PartsOfFour(P, |m|, j, lo, h, 1);
    PartsOfFour(P, |m|, j, lo, h, 2);
    PartsOfFour(P, |m|, j, lo, h, 3);
    FinishDone(P, j, lo, h, m, p1, p5, p6);
    FinishNext(P, j, a, lo, lo + hh, lo + 2 * hh, h, m, p1, p5, p6);
    FinishNext(P, j, Par(a, b), lo, lo + 2 * hh, lo + 3 * hh, h, m, p1, p5, p6);
    FinishNext(P, j, Par(Par(a, b), c), lo, lo + 3 * hh, lo + 4 * hh, h, m, p1, p5, p6);
  }

  // The seven products.

  ghost function Prod(P: Params, j: Mult, sa: seq<int>, sb: seq<int>, i: nat): (p: seq<int>)
    requires Large(P.power, j.n) && |sa| == |sb| == j.n * j.n && i < 7
    ensures |p| == Cells(j)
  {
    LargeHalf(P.power, j.n);
    Product(P.power, j.n / 2, Val(P, j, sa, sb, LeftSlot(i)), Val(P, j, sa, sb, RightSlot(i)))
  }

  /** The operands and the sums are in place. */
  ghost predicate Known(P: Params, j: Mult, m: Mem, sa: seq<int>, sb: seq<int>) {
    && Holding(P, j, m, sa, sb) && Big(P, j.n) && Large(P.power, j.n) && |sa| == |sb| == j.n * j.n
    && forall s: nat :: s < 8 ==> Has(P, j, m, s, Val(P, j, sa, sb, s))
  }

  /** And so are the first k products. */
  ghost predicate Made(P: Params, j: Mult, m: Mem, sa: seq<int>, sb: seq<int>, k: nat) {
    && Known(P, j, m, sa, sb) && k <= 7
    && forall i: nat :: i < k ==> Has(P, j, m, OutSlot(i), Prod(P, j, sa, sb, i))
  }

  /** Only the output and the scratch space changed. */
  ghost predicate Only(P: Params, j: Mult, now: Mem, was: Mem) {
    |now| == |was| && forall y :: 0 <= y < |was| && !Writing(P, Multiply(j), y) ==> now[y] == was[y]
  }

  /** The product is in place, and nothing else changed. */
  ghost predicate Multiplied(P: Params, j: Mult, now: Mem, was: Mem) {
    && Fits(P, |was|, j) && Only(P, j, now, was)
    && Strassen.HeldIn(now, j.c, Product(P.power, j.n, Window(was, j.a, j.n * j.n), Window(was, j.b, j.n * j.n)))
  }

  lemma KnownFacts(P: Params, j: Mult, m: Mem, sa: seq<int>, sb: seq<int>)
    requires Known(P, j, m, sa, sb)
    ensures Above(P, |m|, j) && j.n <= MAX_N && Large(P.power, j.n) && |sa| == |sb| == j.n * j.n && Holding(P, j, m, sa, sb)
  {
  }

  lemma Operands(P: Params, j: Mult, m: Mem, sa: seq<int>, sb: seq<int>, s: nat)
    requires Known(P, j, m, sa, sb) && (s < 8 || 15 <= s < 23)
    ensures Large(P.power, j.n) && |sa| == |sb| == j.n * j.n && Has(P, j, m, s, Val(P, j, sa, sb, s))
  {
    hide Has, Val, Large, Fits, Big;
    if s >= 15 {
      OperandsHeld(P, j, m, sa, sb, s);
    }
  }

  /** Product i leaves every other slot alone. */
  lemma SlotKept(P: Params, j: Mult, i: nat, now: Mem, was: Mem, s: nat, v: seq<int>)
    requires Above(P, |was|, j) && j.n <= MAX_N && i < 7 && s < 23 && s != OutSlot(i) && Only(P, Sub(P, j, i), now, was)
    requires |v| == Cells(j) && Has(P, j, was, s, v)
    ensures Has(P, j, now, s, v)
  {
    hide Room, RoomAt, SlotAt, Fits, Big;
    SlotsApart(P, |was|, j, OutSlot(i), s);
    RoomOffSlot(P, |was|, j, i, s);
    var at := SlotAt(P, j, s);
    forall x | 0 <= x < |v| ensures now[at + x] == v[x] {
      assert !Writing(P, Multiply(Sub(P, j, i)), at + x);
    }
  }

  /** Product i changes only what the whole call may change, and so keeps its operands. */
  lemma SubOnly(P: Params, j: Mult, i: nat, now: Mem, was: Mem, sa: seq<int>, sb: seq<int>)
    requires Holding(P, j, was, sa, sb) && Big(P, j.n) && j.n <= MAX_N && i < 7 && Only(P, Sub(P, j, i), now, was)
    ensures Only(P, j, now, was) && Holding(P, j, now, sa, sb)
  {
    hide Fits, Big, Sub, Writing;
    forall y | 0 <= y < |was| && !Writing(P, Multiply(j), y) ensures now[y] == was[y] {
      SubTouches(P, |was|, j, i, y);
    }
    OnlyHolds(P, j, now, was, sa, sb);
  }

  lemma OnlyHolds(P: Params, j: Mult, now: Mem, was: Mem, sa: seq<int>, sb: seq<int>)
    requires Holding(P, j, was, sa, sb) && Only(P, j, now, was)
    ensures Holding(P, j, now, sa, sb)
  {
    hide Fits, Room;
    forall y | 0 <= y < |was| && Operand(j, y) ensures now[y] == was[y] {
      ThreeParts(P, |was|, j, y);
    }
    assert j.a + j.n * j.n <= |was| && j.b + j.n * j.n <= |was| by { OperandsFit(P, |was|, j); }
    MatrixTasks.SameSlice(now, was, j.a, j.n * j.n);
    MatrixTasks.SameSlice(now, was, j.b, j.n * j.n);
  }

  lemma OperandsFit(P: Params, size: nat, j: Mult)
    requires Fits(P, size, j)
    ensures j.a + j.n * j.n <= size && j.b + j.n * j.n <= size && j.c + j.n * j.n <= size && j.n <= MAX_N
  {
  }

  lemma OnlyTwice(P: Params, j: Mult, w0: Mem, w1: Mem, w2: Mem)
    requires Only(P, j, w1, w0) && Only(P, j, w2, w1)
    ensures Only(P, j, w2, w0)
  {
    hide Writing;
  }

  /** The operands of product i are its two values. */
  lemma SubOperands(P: Params, j: Mult, i: nat, m: Mem, sa: seq<int>, sb: seq<int>)
    requires Known(P, j, m, sa, sb) && i < 7
    ensures Large(P.power, j.n) && |sa| == |sb| == j.n * j.n && j.n <= MAX_N
    ensures var u := Sub(P, j, i);
      && u.a + u.n * u.n <= |m| && u.b + u.n * u.n <= |m| && Size(P.power, u.n)
      && Prod(P, j, sa, sb, i) == Product(P.power, u.n, Window(m, u.a, u.n * u.n), Window(m, u.b, u.n * u.n))
  {
    KnownFacts(P, j, m, sa, sb);
    hide Known, Has, SlotAt, Val, Above, Product, Window, Large;
    LargeHalf(P.power, j.n);
    Operands(P, j, m, sa, sb, LeftSlot(i));
    Operands(P, j, m, sa, sb, RightSlot(i));
    HasWindow(P, j, m, LeftSlot(i), Val(P, j, sa, sb, LeftSlot(i)));
    HasWindow(P, j, m, RightSlot(i), Val(P, j, sa, sb, RightSlot(i)));
  }

  lemma HasWindow(P: Params, j: Mult, m: Mem, s: nat, v: seq<int>)
    requires Has(P, j, m, s, v)
    ensures j.n <= MAX_N && s < 23 && SlotAt(P, j, s) + |v| <= |m| && Window(m, SlotAt(P, j, s), |v|) == v
  {
    hide SlotAt;
    HeldWindow(m, SlotAt(P, j, s), v);
  }

  /** One more product. */
  lemma SubMade(P: Params, j: Mult, i: nat, now: Mem, was: Mem, sa: seq<int>, sb: seq<int>)
    requires Made(P, j, was, sa, sb, i) && i < 7 && j.n <= MAX_N && Multiplied(P, Sub(P, j, i), now, was)
    ensures Made(P, j, now, sa, sb, i + 1) && Only(P, j, now, was)
  {
    KnownFacts(P, j, was, sa, sb);
    SubOperands(P, j, i, was, sa, sb);
    SubOnly(P, j, i, now, was, sa, sb);
    hide Holding, Val, Prod, Large, Only, SlotAt, Fits, Product, Window, Big, RoomAt, Writing;
    forall s: nat | s < 8 ensures Has(P, j, now, s, Val(P, j, sa, sb, s)) {
      SlotKept(P, j, i, now, was, s, Val(P, j, sa, sb, s));
    }
    forall k: nat | k < i + 1 ensures Has(P, j, now, OutSlot(k), Prod(P, j, sa, sb, k)) {
      if k < i {
        SlotKept(P, j, i, now, was, OutSlot(k), Prod(P, j, sa, sb, k));
      }
    }
  }

  /** p makes products up to k. */
  ghost predicate Makes(P: Params, j: Mult, p: Proc<Task>, m: Mem, k: nat, sa: seq<int>, sb: seq<int>) {
    && RaceFree(StrassenLang(P, |m|), p)
    && Made(P, j, Result(P, p, m), sa, sb, k) && Only(P, j, Result(P, p, m), m)
  }

  ghost predicate Does(P: Params, j: Mult, m: Mem) {
    RaceFree(StrassenLang(P, |m|), Call(Multiply(j))) && Multiplied(P, j, Result(P, Call(Multiply(j)), m), m)
  }

  lemma {:induction false} ProductsDone(P: Params, j: Mult, k: nat, m: Mem, sa: seq<int>, sb: seq<int>)
    requires Known(P, j, m, sa, sb) && k <= 7
    ensures j.n <= MAX_N && Makes(P, j, Products(P, j, k), m, k, sa, sb)
    decreases j.n, 1, k
  {
    KnownFacts(P, j, m, sa, sb);
    hide StrassenLang, Result, Known, Holding, Has, Above, Large, Only, Sub, RaceFree;
    if k == 0 {
      ResultOfDone(P, m);
      OnlySelf(P, j, m);
      NoneMade(P, j, m, sa, sb);
    } else {
      ProductsDone(P, j, k - 1, m, sa, sb);
      var m1 := AfterProducts(P, j, Products(P, j, k - 1), m, k - 1, sa, sb);
      SubDone(P, j, k - 1, m1, sa, sb);
      ProductsRaceFree(P, |m|, j, k);
      ResultOfPar(P, Products(P, j, k - 1), Call(Multiply(Sub(P, j, k - 1))), m);
      OnlyTwice(P, j, m, m1, Result(P, Call(Multiply(Sub(P, j, k - 1))), m1));
    }
  }

  lemma OnlySelf(P: Params, j: Mult, m: Mem)
    ensures Only(P, j, m, m)
  {
  }

  lemma NoneMade(P: Params, j: Mult, m: Mem, sa: seq<int>, sb: seq<int>)
    requires Known(P, j, m, sa, sb)
    ensures Made(P, j, m, sa, sb, 0)
  {
    hide Known;
  }

  lemma AfterProducts(P: Params, j: Mult, p: Proc<Task>, m: Mem, k: nat, sa: seq<int>, sb: seq<int>) returns (m': Mem)
    requires Makes(P, j, p, m, k, sa, sb)
    ensures RaceFree(StrassenLang(P, |m|), p) && m' == Result(P, p, m) && |m'| == |m| && Made(P, j, m', sa, sb, k) && Only(P, j, m', m)
  {
    m' := Result(P, p, m);
  }

  lemma ProductsRaceFree(P: Params, size: nat, j: Mult, k: nat)
    requires Above(P, size, j) && k <= 7
    ensures j.n <= MAX_N && RaceFree(StrassenLang(P, size), Products(P, j, k))
  {
    hide StrassenLang, Above;
    ProductsUnder(P, size, j, k);
  }

  lemma {:induction false} SubDone(P: Params, j: Mult, i: nat, m: Mem, sa: seq<int>, sb: seq<int>)
    requires Made(P, j, m, sa, sb, i) && i < 7
    ensures j.n <= MAX_N && RaceFree(StrassenLang(P, |m|), Call(Multiply(Sub(P, j, i))))
    ensures var r := Result(P, Call(Multiply(Sub(P, j, i))), m); Made(P, j, r, sa, sb, i + 1) && Only(P, j, r, m)
    decreases j.n, 0
  {
    KnownFacts(P, j, m, sa, sb);
    SubFits(P, |m|, j, i);
    BigIsLarge(P, j.n);
    hide StrassenLang, Result, Made, Only, Multiplied, Fits, Big, Large, RaceFree;
    MultiplyDone(P, Sub(P, j, i), m);
    SubMade(P, j, i, Result(P, Call(Multiply(Sub(P, j, i))), m), m, sa, sb);
  }

  // The whole call.

  lemma SevenAre(P: Params, j: Mult, sa: seq<int>, sb: seq<int>)
    requires Large(P.power, j.n) && |sa| == |sb| == j.n * j.n
    ensures Size(P.power, j.n / 2)
    ensures var p := SevenOf(P.power, j.n / 2, Strassen.QuadsOf(P.power, j.n, sa), Strassen.QuadsOf(P.power, j.n, sb));
      && p.p1 == Prod(P, j, sa, sb, 0) && p.p5 == Prod(P, j, sa, sb, 1) && p.p6 == Prod(P, j, sa, sb, 2) && p.p7 == Prod(P, j, sa, sb, 3)
      && p.p2 == Prod(P, j, sa, sb, 4) && p.p3 == Prod(P, j, sa, sb, 5) && p.p4 == Prod(P, j, sa, sb, 6)
  {
    LargeHalf(P.power, j.n);
    var v := Strassen.OperandSums(P.power, j.n, sa, sb);
    Strassen.SizesOf(v, P.power, j.n / 2);
    assert Val(P, j, sa, sb, 0) == v.s1 && Val(P, j, sa, sb, 1) == v.s2 && Val(P, j, sa, sb, 2) == v.s3 && Val(P, j, sa, sb, 3) == v.s4;
    assert Val(P, j, sa, sb, 4) == v.s5 && Val(P, j, sa, sb, 5) == v.s6 && Val(P, j, sa, sb, 6) == v.s7 && Val(P, j, sa, sb, 7) == v.s8;
    ValIsQuad(P, j, sa, sb);
    hide Val, Product, Quad, Size, Large, Pow2;
  }

  /** The output's window, with a product in each quadrant. */
  lemma FourInPlace(P: Params, j: Mult, m: Mem, u: seq<int>, v: seq<int>, w: seq<int>, z: seq<int>)
    requires Above(P, |m|, j) && |u| == |v| == |w| == |z| == Cells(j)
    requires Has(P, j, m, 11, u) && Has(P, j, m, 12, v) && Has(P, j, m, 13, w) && Has(P, j, m, 14, z)
    ensures j.c + j.n * j.n <= |m| && j.n * j.n == 4 * Cells(j) && Window(m, j.c, j.n * j.n) == u + v + w + z
  {
    hide Above, Has, Window, Cells;
    FourCells(P, |m|, j);
    SlotStarts(P, j, m, 0, u);
    SlotStarts(P, j, m, 1, v);
    SlotStarts(P, j, m, 2, w);
    SlotStarts(P, j, m, 3, z);
    FourWindows(m, j.c, Cells(j), u, v, w, z);
  }

  lemma FourCells(P: Params, size: nat, j: Mult)
    requires Above(P, size, j)
    ensures j.n * j.n == 4 * Cells(j) && j.c + 4 * Cells(j) <= size && j.n <= MAX_N
  {
    BigIsLarge(P, j.n);
    OperandsFit(P, size, j);
  }

  lemma FourWindows(m: Mem, c: nat, mm: nat, u: seq<int>, v: seq<int>, w: seq<int>, z: seq<int>)
    requires c + 4 * mm <= |m|
    requires Window(m, c, mm) == u && Window(m, c + mm, mm) == v && Window(m, c + 2 * mm, mm) == w && Window(m, c + 3 * mm, mm) == z
    ensures Window(m, c, 4 * mm) == u + v + w + z
  {
    hide Window;
    SliceOfWindow(m, c, 4 * mm, 0, mm);
    SliceOfWindow(m, c, 4 * mm, mm, mm);
    SliceOfWindow(m, c, 4 * mm, 2 * mm, mm);
    SliceOfWindow(m, c, 4 * mm, 3 * mm, mm);
    FourParts(Window(m, c, 4 * mm), mm);
  }

  lemma SlotStarts(P: Params, j: Mult, m: Mem, q: nat, v: seq<int>)
    requires q < 4 && |v| == Cells(j) && Above(P, |m|, j) && Has(P, j, m, 11 + q, v)
    ensures var at := j.c + Strassen.Place(q, Cells(j)); at + Cells(j) <= |m| && Window(m, at, Cells(j)) == v
  {
    BigIsLarge(P, j.n);
    QuadAtIs(P, j.n, j.c, q);
    hide Fits, Big, QuadAt, Size, Large;
    HasWindow(P, j, m, 11 + q, v);
  }

  lemma CombinedCell(now: Mem, was: Mem, c: nat, mm: nat, p1: seq<int>, p5: seq<int>, p6: seq<int>, x: nat)
    requires |p1| == |p5| == |p6| == mm && c + 4 * mm <= |was| && x < mm
    requires Strassen.Apart([c, c + mm, c + 2 * mm, c + 3 * mm], mm, |was|)
    requires Strassen.Combined(now, was, [c, c + mm, c + 2 * mm, c + 3 * mm], 0, mm, mm, p1, p5, p6)
    ensures |now| == |was|
    ensures (now[c + x], now[c + mm + x], now[c + 2 * mm + x], now[c + 3 * mm + x])
         == Recombined(p1[x], was[c + x], was[c + mm + x], was[c + 2 * mm + x], p5[x], p6[x], was[c + 3 * mm + x])
  {
    hide Recombined, Strassen.Among;
  }

  lemma FourStretches(mm: nat)
    ensures Strassen.Apart([0, mm, 2 * mm, 3 * mm], mm, 4 * mm)
  {
  }

  lemma AllAmong(mm: nat, y: nat)
    requires y < 4 * mm
    ensures Strassen.Among([0, mm, 2 * mm, 3 * mm], 0, mm, y)
  {
    var o: seq<nat> := [0, mm, 2 * mm, 3 * mm];
    var q := if y < mm then 0 else if y < 2 * mm then 1 else if y < 3 * mm then 2 else 3;
    assert o[q] + 0 <= y < o[q] + mm;
  }

  lemma WindowCell(m: Mem, c: nat, len: nat, x: nat)
    requires c + len <= |m| && x < len
    ensures Window(m, c, len)[x] == m[c + x]
  {
  }

  /** Seen through the output's window the final additions are the same. */
  lemma CombinedWindow(now: Mem, was: Mem, c: nat, mm: nat, p1: seq<int>, p5: seq<int>, p6: seq<int>)
    requires |p1| == |p5| == |p6| == mm && c + 4 * mm <= |was| == |now|
    requires Strassen.Apart([c, c + mm, c + 2 * mm, c + 3 * mm], mm, |was|)
    requires Strassen.Combined(now, was, [c, c + mm, c + 2 * mm, c + 3 * mm], 0, mm, mm, p1, p5, p6)
    ensures Strassen.Apart([0, mm, 2 * mm, 3 * mm], mm, 4 * mm)
    ensures Strassen.Combined(Window(now, c, 4 * mm), Window(was, c, 4 * mm), [0, mm, 2 * mm, 3 * mm], 0, mm, mm, p1, p5, p6)
  {
    hide Recombined, Window, Strassen.Apart, Strassen.Among, Strassen.Combined;
    FourStretches(mm);
    var v, w := Window(now, c, 4 * mm), Window(was, c, 4 * mm);
    forall x: nat | x < mm
      ensures (v[x], v[mm + x], v[2 * mm + x], v[3 * mm + x]) == Recombined(p1[x], w[x], w[mm + x], w[2 * mm + x], p5[x], p6[x], w[3 * mm + x]) {
      CombinedCell(now, was, c, mm, p1, p5, p6, x);
      WindowCell(now, c, 4 * mm, x);
      WindowCell(now, c, 4 * mm, mm + x);
      WindowCell(now, c, 4 * mm, 2 * mm + x);
      WindowCell(now, c, 4 * mm, 3 * mm + x);
      WindowCell(was, c, 4 * mm, x);
      WindowCell(was, c, 4 * mm, mm + x);
      WindowCell(was, c, 4 * mm, 2 * mm + x);
      WindowCell(was, c, 4 * mm, 3 * mm + x);
    }
    forall y: nat | y < 4 * mm ensures Strassen.Among([0, mm, 2 * mm, 3 * mm], 0, mm, y) {
      AllAmong(mm, y);
    }
    CombinedByCells(v, w, mm, p1, p5, p6);
  }

  lemma CombinedByCells(v: Mem, w: Mem, mm: nat, p1: seq<int>, p5: seq<int>, p6: seq<int>)
    requires |p1| == |p5| == |p6| == mm && |v| == |w| == 4 * mm && Strassen.Apart([0, mm, 2 * mm, 3 * mm], mm, 4 * mm)
    requires forall x: nat :: x < mm ==>
      (v[x], v[mm + x], v[2 * mm + x], v[3 * mm + x]) == Recombined(p1[x], w[x], w[mm + x], w[2 * mm + x], p5[x], p6[x], w[3 * mm + x])
    requires forall y: nat :: y < 4 * mm ==> Strassen.Among([0, mm, 2 * mm, 3 * mm], 0, mm, y)
    ensures Strassen.Combined(v, w, [0, mm, 2 * mm, 3 * mm], 0, mm, mm, p1, p5, p6)
  {
    hide Recombined, Strassen.Among, Strassen.Apart;
  }

  lemma QuadSlotsAre(P: Params, size: nat, j: Mult)
    requires Above(P, size, j)
    ensures j.n <= MAX_N
    ensures var c, mm := j.c, Cells(j); QuadSlots(P, j) == [c, c + mm, c + 2 * mm, c + 3 * mm]
  {
    BigIsLarge(P, j.n);
    hide Fits, Big, QuadAt, Size, Large;
    FitsInt(P, size, j);
    QuadAtIs(P, j.n, j.c, 0);
    QuadAtIs(P, j.n, j.c, 1);
    QuadAtIs(P, j.n, j.c, 2);
    QuadAtIs(P, j.n, j.c, 3);
    QuadSlotIs(P, j, 0);
    QuadSlotIs(P, j, 1);
    QuadSlotIs(P, j, 2);
    QuadSlotIs(P, j, 3);
  }

  lemma WroteAll(now: seq<int>, was: seq<int>, s: seq<int>)
    requires Wrote(now, was, 0, s) && |s| == |was|
    ensures now == s
  {
  }

  lemma AllWrote(was: seq<int>, s: seq<int>)
    requires was == s
    ensures Wrote(was, was, 0, s)
  {
  }

  /** On one matrix alone: its four output products, then the final additions. */
  lemma OneMatrix(power: nat, n: nat, v: seq<int>, w: seq<int>, sa: seq<int>, sb: seq<int>)
    requires Large(power, n) && |sa| == |sb| == |v| == |w| == n * n && n * n == 4 * (n / 2 * (n / 2)) && Size(power, n / 2)
    requires var mm, p := n / 2 * (n / 2), SevenOf(power, n / 2, Strassen.QuadsOf(power, n, sa), Strassen.QuadsOf(power, n, sb));
      && |p.p1| == |p.p2| == |p.p3| == |p.p4| == |p.p5| == |p.p6| == |p.p7| == mm
      && w == p.p2 + p.p3 + p.p4 + p.p7 && Strassen.Apart([0, mm, 2 * mm, 3 * mm], mm, 4 * mm)
      && Strassen.Combined(v, w, [0, mm, 2 * mm, 3 * mm], 0, mm, mm, p.p1, p.p5, p.p6)
    ensures v == Product(power, n, sa, sb)
  {
    hide SevenOf, Strassen.QuadsOf, Strassen.Combined, Strassen.Apart, Product, Size, Wrote;
    var p := SevenOf(power, n / 2, Strassen.QuadsOf(power, n, sa), Strassen.QuadsOf(power, n, sb));
    AllWrote(w, p.p2 + p.p3 + p.p4 + p.p7);
    Strassen.FinalIsProduct(w, w, v, 0, power, n, sa, sb);
    WroteAll(v, w, Product(power, n, sa, sb));
  }

  /** The seven products in place, and the final additions done: the output is the product. */
  lemma WholeProduct(P: Params, j: Mult, now: Mem, was: Mem, sa: seq<int>, sb: seq<int>)
    requires Made(P, j, was, sa, sb, 7) && Large(P.power, j.n) && |sa| == |sb| == j.n * j.n
    requires CombinedIn(P, j, now, was, 0, Cells(j), Prod(P, j, sa, sb, 0), Prod(P, j, sa, sb, 1), Prod(P, j, sa, sb, 2))
    ensures Strassen.HeldIn(now, j.c, Product(P.power, j.n, sa, sb))
  {
    hide Above, Known, Made, Has, Prod, Large, SevenOf, Strassen.QuadsOf, Strassen.Combined, Strassen.Apart, Product, QuadSlots, Window, Size, Strassen.HeldIn;
    SameLength(P, j, now, was, Prod(P, j, sa, sb, 0), Prod(P, j, sa, sb, 1), Prod(P, j, sa, sb, 2));
    MadeKnown(P, j, was, sa, sb);
    LargeHalf(P.power, j.n);
    FourCells(P, |was|, j);
    MadeOutputs(P, j, was, sa, sb);
    SevenAre(P, j, sa, sb);
    QuadSlotsAre(P, |was|, j);
    var p := SevenOf(P.power, j.n / 2, Strassen.QuadsOf(P.power, j.n, sa), Strassen.QuadsOf(P.power, j.n, sb));
    FourInPlace(P, j, was, p.p2, p.p3, p.p4, p.p7);
    CombinedWindow(now, was, j.c, Cells(j), p.p1, p.p5, p.p6);
    OneMatrix(P.power, j.n, Window(now, j.c, j.n * j.n), Window(was, j.c, j.n * j.n), sa, sb);
    WindowHeld(now, j.c, j.n * j.n);
  }

  lemma SameLength(P: Params, j: Mult, now: Mem, was: Mem, p1: seq<int>, p5: seq<int>, p6: seq<int>)
    requires CombinedIn(P, j, now, was, 0, Cells(j), p1, p5, p6)
    ensures |now| == |was|
  {
  }

  lemma MadeKnown(P: Params, j: Mult, m: Mem, sa: seq<int>, sb: seq<int>)
    requires Made(P, j, m, sa, sb, 7)
    ensures Above(P, |m|, j)
  {
    hide Has;
  }

  lemma MadeOutputs(P: Params, j: Mult, m: Mem, sa: seq<int>, sb: seq<int>)
    requires Made(P, j, m, sa, sb, 7)
    ensures Large(P.power, j.n) && |sa| == |sb| == j.n * j.n
    ensures Has(P, j, m, 8, Prod(P, j, sa, sb, 0)) && Has(P, j, m, 9, Prod(P, j, sa, sb, 1)) && Has(P, j, m, 10, Prod(P, j, sa, sb, 2))
    ensures Has(P, j, m, 11, Prod(P, j, sa, sb, 4)) && Has(P, j, m, 12, Prod(P, j, sa, sb, 5)) && Has(P, j, m, 13, Prod(P, j, sa, sb, 6))
    ensures Has(P, j, m, 14, Prod(P, j, sa, sb, 3))
  {
    hide Has, Holding, Large, Val;
    assert OutSlot(0) == 8 && OutSlot(1) == 9 && OutSlot(2) == 10 && OutSlot(3) == 14 && OutSlot(4) == 11 && OutSlot(5) == 12 && OutSlot(6) == 13;
  }

  lemma MadeProducts3(P: Params, j: Mult, m: Mem, sa: seq<int>, sb: seq<int>)
    requires Made(P, j, m, sa, sb, 7)
    ensures Large(P.power, j.n) && |sa| == |sb| == j.n * j.n
    ensures Products3(P, j, m, Prod(P, j, sa, sb, 0), Prod(P, j, sa, sb, 1), Prod(P, j, sa, sb, 2))
  {
    MadeOutputs(P, j, m, sa, sb);
    KnownFacts(P, j, m, sa, sb);
    hide Has, Prod, Known, Made, Above, Large;
  }

  /** After setup_add. */
  lemma {:induction false} SetupKnown(P: Params, j: Mult, m: Mem, sa: seq<int>, sb: seq<int>)
    requires Holding(P, j, m, sa, sb) && Big(P, j.n)
    ensures RaceFree(StrassenLang(P, |m|), Call(Setup(j, 0, j.n / 2)))
    ensures var r := Result(P, Call(Setup(j, 0, j.n / 2)), m); Known(P, j, r, sa, sb) && Only(P, j, r, m)
  {
    HoldingSizes(P, j, m, sa, sb);
    BigIsLarge(P, j.n);
    assert Part(P, |m|, j, 0, j.n / 2);
    hide StrassenLang, Result, Fits, Holding, Big, Large, Size, Has, Val, SumSlots, Strassen.Summed, Strassen.QuadsOf, Room;
    SetupDone(P, j, 0, j.n / 2, m, sa, sb);
    var r := Result(P, Call(Setup(j, 0, j.n / 2)), m);
    assert SumsIn(P, j, r, m, 0, Cells(j), sa, sb);
    SummedHolds(P, j, r, m, 0, Cells(j), sa, sb);
    forall s: nat | s < 8 ensures Has(P, j, r, s, Val(P, j, sa, sb, s)) {
      SumsHeld(P, j, r, m, sa, sb, s);
    }
  }

  lemma FinishedFacts(P: Params, j: Mult, now: Mem, was: Mem, p1: seq<int>, p5: seq<int>, p6: seq<int>)
    requires Products3(P, j, was, p1, p5, p6) && CombinedIn(P, j, now, was, 0, Cells(j), p1, p5, p6)
    ensures Only(P, j, now, was)
  {
    hide Products3, CombinedIn, Room;
    CombinedHolds(P, j, now, was, 0, Cells(j), p1, p5, p6);
  }

  lemma MultiplyResult(P: Params, j: Mult, m: Mem)
    requires Fits(P, |m|, j)
    ensures RaceFree(StrassenLang(P, |m|), Call(Multiply(j))) && RaceFree(StrassenLang(P, |m|), RunMultiply(P, j))
    ensures Result(P, Call(Multiply(j)), m) == Result(P, RunMultiply(P, j), m)
  {
    ResultOfCall(P, Multiply(j), m);
    hide StrassenLang, Result, RunMultiply, Fits;
  }

  lemma ThenRaceFree<T>(L: Lang<T>, p: Proc<T>, q: Proc<T>)
    requires RaceFree(L, Then(p, q))
    ensures RaceFree(L, p) && RaceFree(L, q)
  {
  }

  lemma ResultOfThree(P: Params, p: Proc<Task>, q: Proc<Task>, r: Proc<Task>, m: Mem)
    requires RaceFree(StrassenLang(P, |m|), Then(p, Then(q, r)))
    ensures var L := StrassenLang(P, |m|); RaceFree(L, p) && RaceFree(L, q) && RaceFree(L, r)
    ensures Result(P, Then(p, Then(q, r)), m) == Result(P, r, Result(P, q, Result(P, p, m)))
  {
    hide StrassenLang, Result;
    ThenRaceFree(StrassenLang(P, |m|), p, Then(q, r));
    ThenRaceFree(StrassenLang(P, |m|), q, r);
    ResultOfThen(P, p, Then(q, r), m);
    ResultOfThen(P, q, r, Result(P, p, m));
  }

  lemma StartsHolding(P: Params, j: Mult, m: Mem)
    requires Fits(P, |m|, j)
    ensures j.n <= MAX_N && j.a + j.n * j.n <= |m| && j.b + j.n * j.n <= |m| && Size(P.power, j.n)
    ensures Holding(P, j, m, Window(m, j.a, j.n * j.n), Window(m, j.b, j.n * j.n))
  {
  }

  /** setup_add and the products. */
  lemma {:induction false} UpToProducts(P: Params, j: Mult, m: Mem, sa: seq<int>, sb: seq<int>)
    requires Holding(P, j, m, sa, sb) && Big(P, j.n) && RaceFree(StrassenLang(P, |m|), Call(Setup(j, 0, j.n / 2)))
    ensures j.n <= MAX_N && RaceFree(StrassenLang(P, |m|), Products(P, j, 7))
    ensures var r := Result(P, Products(P, j, 7), Result(P, Call(Setup(j, 0, j.n / 2)), m)); Made(P, j, r, sa, sb, 7) && Only(P, j, r, m)
    decreases j.n, 2
  {
    hide StrassenLang, Result, Holding, Big, Known, Made, Only, RaceFree, Products;
    SetupKnown(P, j, m, sa, sb);
    var m1 := Result(P, Call(Setup(j, 0, j.n / 2)), m);
    ProductsDone(P, j, 7, m1, sa, sb);
    var m2 := AfterProducts(P, j, Products(P, j, 7), m1, 7, sa, sb);
    OnlyTwice(P, j, m, m1, m2);
  }

  /** The final additions after that. */
  lemma ThenFinish(P: Params, j: Mult, m: Mem, sa: seq<int>, sb: seq<int>)
    requires Made(P, j, m, sa, sb, 7) && Part(P, |m|, j, 0, j.n / 2)
    ensures Large(P.power, j.n) && |sa| == |sb| == j.n * j.n
    ensures RaceFree(StrassenLang(P, |m|), Call(Finish(j, 0, j.n / 2)))
    ensures var r := Result(P, Call(Finish(j, 0, j.n / 2)), m);
      Strassen.HeldIn(r, j.c, Product(P.power, j.n, sa, sb)) && Only(P, j, r, m)
  {
    hide StrassenLang, Result, Made, Only, RaceFree, CombinedIn, Products3, Prod, Strassen.HeldIn, Product, Large, Part;
    MadeProducts3(P, j, m, sa, sb);
    var p1, p5, p6 := Prod(P, j, sa, sb, 0), Prod(P, j, sa, sb, 1), Prod(P, j, sa, sb, 2);
    FinishDone(P, j, 0, j.n / 2, m, p1, p5, p6);
    var r := Result(P, Call(Finish(j, 0, j.n / 2)), m);
    WholeProduct(P, j, r, m, sa, sb);
    FinishedFacts(P, j, r, m, p1, p5, p6);
  }

  lemma RunBig(P: Params, j: Mult)
    requires Big(P, j.n) && j.n <= MAX_N
    ensures RunMultiply(P, j) == Then(Call(Setup(j, 0, j.n / 2)), Then(Products(P, j, 7), Call(Finish(j, 0, j.n / 2))))
  {
    hide Products;
  }

  lemma WholePart(P: Params, size: nat, j: Mult)
    requires Fits(P, size, j) && Big(P, j.n)
    ensures Part(P, size, j, 0, j.n / 2)
  {
    BigIsLarge(P, j.n);
  }

  /** A call above the threshold. */
  lemma {:induction false} BigDone(P: Params, j: Mult, m: Mem)
    requires Fits(P, |m|, j) && Big(P, j.n)
    ensures Does(P, j, m)
    decreases j.n, 3
  {
    hide StrassenLang, Result, Fits, Holding, Big, Made, Only, RaceFree, RunMultiply, Products, Product, Window, Part, Strassen.HeldIn, Size;
    StartsHolding(P, j, m);
    WholePart(P, |m|, j);
    MultiplyResult(P, j, m);
    RunBig(P, j);
    var sa, sb := Window(m, j.a, j.n * j.n), Window(m, j.b, j.n * j.n);
    var a, b, c := Call(Setup(j, 0, j.n / 2)), Products(P, j, 7), Call(Finish(j, 0, j.n / 2));
    ResultOfThree(P, a, b, c, m);
    UpToProducts(P, j, m, sa, sb);
    var m2 := Result(P, b, Result(P, a, m));
    ThenFinish(P, j, m2, sa, sb);
    OnlyTwice(P, j, m, m2, Result(P, c, m2));
  }

  /** At the threshold mm_dac_z takes over. */
  lemma PlainDone(P: Params, j: Mult, m: Mem)
    requires Fits(P, |m|, j) && !Big(P, j.n)
    ensures Does(P, j, m)
  {
    OperandsFit(P, |m|, j);
    MultiplyResult(P, j, m);
    var job := MatrixTasks.Job(j.c, j.a, j.b, j.n, false);
    PlainFits(P, |m|, j);
    StrassenIsSound(P, |m|);
    MatrixTasks.MatrixIsSound(P, |m|);
    MatrixTasks.JobDone(P, job, m);
    var u: Proc<MatrixTasks.Task> := Call(Plain(j));
    assert Lift(u) == Call(Below(Plain(j))) == RunMultiply(P, j);
    LiftSerial(P, u, m);
    assert Result(P, Lift(u), m) == MatrixTasks.Result(P, u, m);
    WrotePlain(P, j, MatrixTasks.Result(P, u, m), m);
    hide StrassenLang, MatrixTasks.MatrixLang, Result, MatrixTasks.Result, Fits, Sound, RaceFree;
  }

  lemma PlainFits(P: Params, size: nat, j: Mult)
    requires Fits(P, size, j)
    ensures MatrixTasks.Fits(P, size, MatrixTasks.Job(j.c, j.a, j.b, j.n, false))
  {
    hide Size, Room;
    SizePositive(P.power, j.n);
    SquarePositive(j.n);
  }

  lemma WrotePlain(P: Params, j: Mult, now: Mem, was: Mem)
    requires Fits(P, |was|, j) && MatrixTasks.Fits(P, |was|, MatrixTasks.Job(j.c, j.a, j.b, j.n, false))
    requires Wrote(now, was, j.c, MatrixTasks.Goal(P, MatrixTasks.Job(j.c, j.a, j.b, j.n, false), was))
    ensures Multiplied(P, j, now, was)
  {
    hide Size, Room, Product, Window;
  }

  /** Every call, however deep, leaves the product in its output and touches nothing but that and its scratch space. */
  lemma {:induction false} MultiplyDone(P: Params, j: Mult, m: Mem)
    requires Fits(P, |m|, j)
    ensures Does(P, j, m)
    decreases j.n, 4
  {
    if Big(P, j.n) {
      BigDone(P, j, m);
    } else {
      PlainDone(P, j, m);
    }
  }

  /** Above sixteen times the block size all seven products can go first once the sums are there, and the parts of the sums and
      of the final additions side by side down to the block size; below it mm_dac_z takes over. */
  lemma SpawnedSideBySide(P: Params, t: Task, m: Mem, i: nat)
    requires Sensible(P, |m|, t)
    ensures t.Multiply? ==>
      var p := Run(P, t, m).rest;
      && (p.Then? <==> t.j.n > 16 * Pow2(P.power)) && (!p.Then? ==> p == Call(Below(Plain(t.j))))
      && (p.Then? ==> p.first == Call(Setup(t.j, 0, t.j.n / 2)) && p.second.Then? && p.second.second == Call(Finish(t.j, 0, t.j.n / 2)))
      && (p.Then? && i < 7 ==> CanBeNext(p.second.first, Multiply(Sub(P, t.j, i))))
    ensures t.Setup? && t.m != Pow2(P.power) && i < 4 ==> CanBeNext(Run(P, t, m).rest, Setup(t.j, QuadAt(P, t.m, t.lo, i), t.m / 2))
    ensures t.Finish? && t.m != Pow2(P.power) && i < 4 ==> CanBeNext(Run(P, t, m).rest, Finish(t.j, QuadAt(P, t.m, t.lo, i), t.m / 2))
  {
    hide Sub, QuadAt, Products;
    match t
    case Multiply(j) =>
      SixteenTimes(P.power);
      if i < 7 {
        AnyProduct(P, j, 7, i);
      }
    case Setup(j, lo, k) =>
      AnyOfFour(Setup(j, QuadAt(P, k, lo, 0), k / 2), Setup(j, QuadAt(P, k, lo, 1), k / 2),
                Setup(j, QuadAt(P, k, lo, 2), k / 2), Setup(j, QuadAt(P, k, lo, 3), k / 2));
    case Finish(j, lo, k) =>
      AnyOfFour(Finish(j, QuadAt(P, k, lo, 0), k / 2), Finish(j, QuadAt(P, k, lo, 1), k / 2),
                Finish(j, QuadAt(P, k, lo, 2), k / 2), Finish(j, QuadAt(P, k, lo, 3), k / 2));
    case _ =>
  }

  lemma SixteenTimes(power: nat)
    ensures Pow2(power + 4) == 16 * Pow2(power)
  {
    assert Pow2(power + 2) == 4 * Pow2(power);
    assert Pow2(power + 4) == 4 * Pow2(power + 2);
  }

  lemma {:induction false} AnyProduct(P: Params, j: Mult, k: nat, i: nat)
    requires j.n <= MAX_N && i < k
    ensures CanBeNext(Products(P, j, k), Multiply(Sub(P, j, i)))
  {
    hide Sub;
    if i < k - 1 {
      AnyProduct(P, j, k - 1, i);
    }
  }

  // ---------------------------------------------------------------- every schedule

  /** However many processors interleave the tasks of strassen_z, setup_add, final_add and mm_dac_z: the output ends as
      A * B, nothing changes but the output and the scratch space, and every schedule can be completed. */
  lemma EveryScheduleIsTheProduct(P: Params, j: Mult, run: seq<Config<Task>>)
    requires run != [] && Schedule(StrassenLang(P, |run[0].mem|), run)
    requires run[0].prog == Call(Multiply(j)) && Fits(P, |run[0].mem|, j)
    ensures run[|run| - 1].prog.Done? ==> Multiplied(P, j, run[|run| - 1].mem, run[0].mem)
    ensures Sound(StrassenLang(P, |run[0].mem|)) && RaceFree(StrassenLang(P, |run[0].mem|), run[0].prog)
    ensures |run| - 1 <= Serial(StrassenLang(P, |run[0].mem|), run[0].prog, run[0].mem).steps
    ensures run[|run| - 1].prog.Done? <==> |run| - 1 == Serial(StrassenLang(P, |run[0].mem|), run[0].prog, run[0].mem).steps
  {
    var m := run[0].mem;
    var L := StrassenLang(P, |m|);
    StrassenIsSound(P, |m|);
    MultiplyDone(P, j, m);
    hide StrassenLang, Multiplied, Fits;
    NeverLonger(L, run);
    if run[|run| - 1].prog.Done? {
      Determinate(L, run);
    }
  }
}
