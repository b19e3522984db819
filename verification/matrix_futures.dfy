/**
 The future versions of mm_dac_z and mat_mul_par with their handles: four futures are created, and each of the
 four calls that accumulate onto a quadrant waits for the handle of that quadrant first.
 */
module MatrixFutures {
  import opened Morton
  import opened BlockLayout
  import opened ZMultiply
  import opened ForkJoin
  import opened MatrixTasks
  import Futures

  /** Quadrant (r, s): the future stores or accumulates the first product, the call the second. */
  function Quadrant(P: Params, j: Job, r: nat, s: nat): Futures.Lane<Task>
    requires j.n <= MAX_N && r <= 1 && s <= 1
  {
    Futures.Lane(Futures.Task(Multiply(SubJob(P, j, r, s, 0))), false, Futures.Task(Multiply(SubJob(P, j, r, s, 1))))
  }

  ghost function RunWithHandles(P: Params, t: Task, m: Mem): Futures.Effect<Task>
    requires Sensible(P, |m|, t)
  {
    match t
    case Multiply(j) =>
      if j.n == Pow2(P.power) then Futures.Effect(Futures.Task(Cells(j, 0)), m)
      else Futures.Effect(Futures.Block(0, Quadrant(P, j, 0, 0), Quadrant(P, j, 0, 1), Quadrant(P, j, 1, 0), Quadrant(P, j, 1, 1)), m)
    case Cells(j, x) =>
      if x < j.n * j.n then Futures.Effect(Futures.Task(Cells(j, x + 1)), m[j.c + x := CellValue(P, j, m, x)])
      else Futures.Effect(Futures.Finished, m)
  }

  ghost function HandleLang(P: Params, size: nat): Futures.FutureLang<Task> {
    Futures.FutureLang(MatrixLang(P, size),
                       (t: Task, m: Mem) => if Sensible(P, |m|, t) then RunWithHandles(P, t, m) else Futures.Effect(Futures.Finished, m))
  }

  /** The handles order just what the fork-join program with one chain per quadrant orders. */
  lemma HandlesAreFaithful(P: Params, size: nat)
    requires P.futures
    ensures Futures.Faithful(HandleLang(P, size))
  {
    var F := HandleLang(P, size);
    forall t: Task, m: Mem | F.lang.ok(t) && |m| == size ensures Futures.Amounts(F, t, m) {
      SameWork(P, t, m);
    }
  }

  lemma SameWork(P: Params, t: Task, m: Mem)
    requires P.futures && Sensible(P, |m|, t)
    ensures Futures.Amounts(HandleLang(P, |m|), t, m)
  {
    hide SubJob, CellValue;
    var e, o := RunWithHandles(P, t, m), Run(P, t, m);
    assert HandleLang(P, |m|).run(t, m) == e && MatrixLang(P, |m|).run(t, m) == o;
    match t
    case Cells(_, _) =>
    case Multiply(j) =>
      if j.n != Pow2(P.power) {
        BodyIs(P, j);
        QuadrantIsChain(P, j, 0, 0);
        QuadrantIsChain(P, j, 0, 1);
        QuadrantIsChain(P, j, 1, 0);
        QuadrantIsChain(P, j, 1, 1);
        hide Quadrant, Chain;
      }
  }

  lemma QuadrantIsChain(P: Params, j: Job, r: nat, s: nat)
    requires j.n <= MAX_N && r <= 1 && s <= 1
    ensures var l := Quadrant(P, j, r, s);
      && Futures.AbsLane(l.got, Futures.Abs(l.first), Futures.Abs(l.second)) == Chain(P, j, r, s)
      && Futures.ProperLane(l, false, false) && Futures.LeftInLane(l) == 0
  {
    hide SubJob;
    var l := Quadrant(P, j, r, s);
    assert Futures.Abs(l.first) == Part(P, j, r, s, 0) && Futures.Abs(l.second) == Part(P, j, r, s, 1);
    assert Futures.Left(l.first) == 0 && Futures.Left(l.second) == 0;
  }

  /** Above the block size, nothing has to finish before all eight instructions of the block are executed; and from the fourth
      on, the first products of all four quadrants are side by side. */
  lemma FuturesSideBySide(P: Params, j: Job, m: Mem, k: nat, r: nat, s: nat)
    requires Fits(P, |m|, j) && j.n != Pow2(P.power) && k < 8 && r <= 1 && s <= 1
    ensures var p := RunWithHandles(P, Multiply(j), m).rest;
      && p.Block? && p.pc == 0 && Futures.Moves(HandleLang(P, |m|), p.(pc := k), m, p.(pc := k + 1), m)
      && Futures.CanBeNext(p.(pc := 4), Multiply(SubJob(P, j, r, s, 0)))
  {
    hide SubJob;
    var p := RunWithHandles(P, Multiply(j), m).rest;
    Futures.LanesMoveFreely(HandleLang(P, |m|), p.(pc := k), 0, m, p, m);
    hide Futures.Moves;
    var t := Multiply(SubJob(P, j, r, s, 0));
    assert Futures.NextInLane(Quadrant(P, j, r, s), true, t);
    hide Quadrant, Futures.NextInLane;
  }

  /** Every schedule of the program with handles, its waits included: C ends as (add ? C : 0) + A * B, and nothing else
      changes; it is never stuck before the end, and no schedule is longer than a bound known beforehand. */
  lemma EveryHandleScheduleMultiplies(P: Params, j: Job, run: seq<Futures.Setup<Task>>)
    requires P.futures && run != [] && Futures.Schedule(HandleLang(P, |run[0].mem|), run)
    requires run[0].prog == Futures.Task(Multiply(j)) && Fits(P, |run[0].mem|, j)
    ensures var F, last := HandleLang(P, |run[0].mem|), run[|run| - 1];
      && (last.prog.Finished? ==> Wrote(last.mem, run[0].mem, j.c, Goal(P, j, run[0].mem)))
      && Futures.Proper(last.prog)
      && (!last.prog.Finished? ==> Futures.Movable(F, last))
      && Futures.Good(F, run[0]) && |run| - 1 <= Futures.Bound(F, run[0])
  {
    var m := run[0].mem;
    var F := HandleLang(P, |m|);
    HandlesAreFaithful(P, |m|);
    MatrixIsSound(P, |m|);
    JobDone(P, j, m);
    assert Futures.Abs(run[0].prog) == Call(Multiply(j));
    assert Futures.Good(F, run[0]);
    Futures.EverySchedule(F, run);
  }
}
