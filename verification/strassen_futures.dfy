/**
 strassen-future.cpp with its handles: strassen_z calls setup_add, creates a future for each of the seven products,
 and final_add waits for all seven before it spawns anything; below the threshold it is mm_dac_z with its handles.
 The no-op that strassen_z spawns counts as a call before the first future.
 */
module StrassenFutures {
  import opened Morton
  import opened BlockLayout
  import opened ForkJoin
  import opened StrassenTasks
  import MatrixTasks
  import MatrixFutures
  import Futures

  // ---------------------------------------------------------------- mm_dac_z's programs are programs here

  /** What a task of mm_dac_z leaves: a task, or a block of lanes of tasks. */
  predicate OneLevel(p: Futures.Prog<MatrixTasks.Task>) {
    match p
    case Block(_, l0, l1, l2, l3) => OfTasks(l0) && OfTasks(l1) && OfTasks(l2) && OfTasks(l3)
    case Fork(_, _, _, _, _) => false
    case _ => true
  }

  predicate OfTasks(l: Futures.Lane<MatrixTasks.Task>) {
    l.first.Task? && l.second.Task?
  }

  function LiftLane(l: Futures.Lane<MatrixTasks.Task>): Futures.Lane<Task>
    requires OfTasks(l)
  {
    Futures.Lane(Futures.Task(Below(l.first.task)), l.got, Futures.Task(Below(l.second.task)))
  }

  function LiftProg(p: Futures.Prog<MatrixTasks.Task>): Futures.Prog<Task>
    requires OneLevel(p)
  {
    match p
    case Finished => Futures.Finished
    case Task(u) => Futures.Task(Below(u))
    case Block(pc, l0, l1, l2, l3) => Futures.Block(pc, LiftLane(l0), LiftLane(l1), LiftLane(l2), LiftLane(l3))
  }

  lemma LiftedLane(l: Futures.Lane<MatrixTasks.Task>, created: bool, spawned: bool)
    requires OfTasks(l) && Futures.ProperLane(l, created, spawned)
    ensures var k := LiftLane(l);
      && Futures.ProperLane(k, created, spawned) && Futures.LeftInLane(k) == 0 && Futures.LeftInLane(l) == 0
      && Futures.AbsLane(k.got, Futures.Abs(k.first), Futures.Abs(k.second))
      == Lift(Futures.AbsLane(l.got, Futures.Abs(l.first), Futures.Abs(l.second)))
  {
    var k := LiftLane(l);
    assert Futures.Left(k.first) == 0 && Futures.Left(k.second) == 0 && Futures.Left(l.first) == 0 && Futures.Left(l.second) == 0;
    assert Futures.Abs(k.first) == Lift(Futures.Abs(l.first)) && Futures.Abs(k.second) == Lift(Futures.Abs(l.second));
  }

  lemma LiftFour(a: Proc<MatrixTasks.Task>, b: Proc<MatrixTasks.Task>, c: Proc<MatrixTasks.Task>, d: Proc<MatrixTasks.Task>)
    ensures Lift(Par(Par(Par(a, b), c), d)) == Par(Par(Par(Lift(a), Lift(b)), Lift(c)), Lift(d))
  {
    assert Lift(Par(Par(a, b), c)) == Par(Lift(Par(a, b)), Lift(c));
  }

  lemma LiftedProg(p: Futures.Prog<MatrixTasks.Task>)
    requires OneLevel(p) && Futures.Proper(p)
    ensures Futures.Proper(LiftProg(p)) && Futures.Left(LiftProg(p)) == Futures.Left(p) && Futures.Abs(LiftProg(p)) == Lift(Futures.Abs(p))
  {
    match p
    case Block(_, _, _, _, _) => LiftedBlock(p);
    case _ =>
  }

  lemma LiftedBlock(p: Futures.Prog<MatrixTasks.Task>)
    requires p.Block? && OneLevel(p) && Futures.Proper(p)
    ensures Futures.Proper(LiftProg(p)) && Futures.Left(LiftProg(p)) == Futures.Left(p) && Futures.Abs(LiftProg(p)) == Lift(Futures.Abs(p))
  {
    hide OfTasks, LiftLane, Lift, Futures.AbsLane, Futures.ProperLane, Futures.LeftInLane;
    var pc, l0, l1, l2, l3 := p.pc, p.l0, p.l1, p.l2, p.l3;
    LiftedLane(l0, 0 < pc, 4 < pc);
    LiftedLane(l1, 1 < pc, 5 < pc);
    LiftedLane(l2, 2 < pc, 6 < pc);
    LiftedLane(l3, 3 < pc, 7 < pc);
    LiftFour(Futures.AbsLane(l0.got, Futures.Abs(l0.first), Futures.Abs(l0.second)), Futures.AbsLane(l1.got, Futures.Abs(l1.first), Futures.Abs(l1.second)),
             Futures.AbsLane(l2.got, Futures.Abs(l2.first), Futures.Abs(l2.second)), Futures.AbsLane(l3.got, Futures.Abs(l3.first), Futures.Abs(l3.second)));
  }

  // ---------------------------------------------------------------- the programs

  /** The no-op, and futures for the first k products. */
  function ProductFutures(P: Params, j: Mult, k: nat): Futures.Branches<Task>
    requires j.n <= MAX_N
  {
    if k == 0 then Futures.Branch(Futures.NoBranch, true, Futures.Finished)
    else Futures.Branch(ProductFutures(P, j, k - 1), false, Futures.Task(Multiply(Sub(P, j, k - 1))))
  }

  function MultiplyCode(P: Params, j: Mult): Futures.Prog<Task>
    requires j.n <= MAX_N
  {
    if Big(P, j.n) then
      Futures.Fork(0, Futures.Branch(Futures.NoBranch, true, Futures.Task(Setup(j, 0, j.n / 2))), false, 0,
        Futures.Fork(0, ProductFutures(P, j, 7), false, 0, Futures.Task(Finish(j, 0, j.n / 2))))
    else Futures.Task(Below(Plain(j)))
  }

  /** Three spawns, a call and the sync. */
  function FourParts(a: Task, b: Task, c: Task, d: Task): Futures.Prog<Task> {
    Futures.Fork(0, Futures.Branch(Futures.Branch(Futures.Branch(Futures.Branch(Futures.NoBranch, false, Futures.Task(a)),
                                                                 false, Futures.Task(b)), false, Futures.Task(c)), true, Futures.Task(d)),
                 false, 0, Futures.Finished)
  }

  function SetupCode(P: Params, j: Mult, lo: nat, m: nat): Futures.Prog<Task>
    requires m <= MAX_N
  {
    if m == Pow2(P.power) then Futures.Task(SetupCells(j, lo, lo + m * m))
    else FourParts(Setup(j, QuadAt(P, m, lo, 0), m / 2), Setup(j, QuadAt(P, m, lo, 1), m / 2),
                   Setup(j, QuadAt(P, m, lo, 2), m / 2), Setup(j, QuadAt(P, m, lo, 3), m / 2))
  }

  function FinishCode(P: Params, j: Mult, lo: nat, m: nat): Futures.Prog<Task>
    requires m <= MAX_N
  {
    if m == Pow2(P.power) then Futures.Task(FinishCells(j, lo, lo + m * m))
    else FourParts(Finish(j, QuadAt(P, m, lo, 0), m / 2), Finish(j, QuadAt(P, m, lo, 1), m / 2),
                   Finish(j, QuadAt(P, m, lo, 2), m / 2), Finish(j, QuadAt(P, m, lo, 3), m / 2))
  }

  ghost function RunWithHandles(P: Params, t: Task, m: Mem): Futures.Effect<Task>
    requires Sensible(P, |m|, t)
  {
    match t
    case Multiply(j) => Futures.Effect(MultiplyCode(P, j), m)
    case Setup(j, lo, k) => Futures.Effect(SetupCode(P, j, lo, k), m)
    case Finish(j, lo, k) => Futures.Effect(FinishCode(P, j, lo, k), m)
    case SetupCells(j, x, hi) =>
      if x < hi then Futures.Effect(Futures.Task(SetupCells(j, x + 1, hi)), SumsStored(P, j, x, m)) else Futures.Effect(Futures.Finished, m)
    case FinishCells(j, x, hi) =>
      if x < hi then Futures.Effect(Futures.Task(FinishCells(j, x + 1, hi)), FinalStored(P, j, x, m)) else Futures.Effect(Futures.Finished, m)
    case Below(u) =>
      var e := MatrixFutures.RunWithHandles(P, u, m);
      Futures.Effect(LiftProg(e.rest), e.mem)
  }

  ghost function HandleLang(P: Params, size: nat): Futures.FutureLang<Task> {
    Futures.FutureLang(StrassenLang(P, size),
                       (t: Task, m: Mem) => if Sensible(P, |m|, t) then RunWithHandles(P, t, m) else Futures.Effect(Futures.Finished, m))
  }

  // ---------------------------------------------------------------- the handles order what the fork-join tasks order

  lemma {:induction false} ProductFuturesAre(P: Params, j: Mult, k: nat)
    requires j.n <= MAX_N
    ensures var bs := ProductFutures(P, j, k);
      Futures.AbsAll(bs) == Products(P, j, k) && Futures.Fresh(bs) && Futures.Len(bs) == k + 1 && bs.Branch?
  {
    if k > 0 {
      hide Sub;
      ProductFuturesAre(P, j, k - 1);
      Futures.AddTask(ProductFutures(P, j, k - 1), false, Multiply(Sub(P, j, k - 1)));
    }
  }

  // ---------------------------------------------------------------- side by side

  lemma {:induction false} ProductsFree(P: Params, j: Mult, k: nat, pc: nat, i: nat)
    requires j.n <= MAX_N && k < pc && i <= k
    ensures var bs := ProductFutures(P, j, k);
      && Futures.Len(bs) == k + 1 && (i < k ==> Futures.NextInBranches(bs, pc, Multiply(Sub(P, j, i))))
      && (if i == 0 then Futures.Nth(bs, 0).Finished? else !Futures.Owned(bs, i))
  {
    if k > 0 {
      hide Sub;
      var before, t := ProductFutures(P, j, k - 1), Multiply(Sub(P, j, k - 1));
      if i < k {
        ProductsFree(P, j, k - 1, pc, i);
        Futures.OneMoreNext(before, false, t, pc, Multiply(Sub(P, j, i)));
        assert i == 0 ==> Futures.Nth(ProductFutures(P, j, k), 0) == Futures.Nth(before, 0);
      } else {
        ProductsFree(P, j, k - 1, pc, 0);
        Futures.OneMoreNext(before, false, t, pc, t);
      }
    }
  }

  /** Nothing has to finish before the futures and spawns of a fork are started. */
  ghost predicate Creates(F: Futures.FutureLang<Task>, p: Futures.Prog<Task>, k: nat, m: Mem)
    requires p.Fork?
  {
    Futures.Moves(F, p.(started := k), m, p.(started := k + 1), m)
  }

  /** Once the sums are there nothing has to finish before all seven futures are created, and then any of the products can
      be next. */
  lemma ProductsSideBySide(P: Params, j: Mult, m: Mem, k: nat, i: nat)
    requires Fits(P, |m|, j) && Big(P, j.n) && k < 8 && i < 7
    ensures var p := RunWithHandles(P, Multiply(j), m).rest;
      && p.Fork? && Futures.CanBeNext(p, Setup(j, 0, j.n / 2)) && p.rest.Fork? && p.rest.rest == Futures.Task(Finish(j, 0, j.n / 2))
      && !p.rest.down && Creates(HandleLang(P, |m|), p.rest, k, m) && Futures.CanBeNext(p.rest.(started := 8), Multiply(Sub(P, j, i)))
  {
    hide Big, ProductFutures, Sub;
    var p := RunWithHandles(P, Multiply(j), m).rest;
    assert Futures.NextInBranches(p.bs, 0, Setup(j, 0, j.n / 2)) by {
      Futures.OneMoreNext(Futures.NoBranch, true, Setup(j, 0, j.n / 2), 0, Setup(j, 0, j.n / 2));
    }
    ProductsFree(P, j, 7, 8, i);
    ProductsFree(P, j, 7, 8, k);
    Futures.BranchesMoveFreely(HandleLang(P, |m|), p.rest.(started := k), k, m, p, m);
    hide Futures.Moves, Futures.NextInBranches;
  }

  /** The four parts of the sums, and of the final additions, are side by side once three are spawned. */
  lemma PartsSideBySide(P: Params, t: Task, m: Mem, k: nat, i: nat)
    requires Sensible(P, |m|, t) && (t.Setup? || t.Finish?) && t.m != Pow2(P.power) && k < 3 && i < 4
    ensures var p := RunWithHandles(P, t, m).rest;
      && p.Fork? && Creates(HandleLang(P, |m|), p, k, m)
      && Futures.CanBeNext(p.(started := 3), if t.Setup? then Setup(t.j, QuadAt(P, t.m, t.lo, i), t.m / 2) else Finish(t.j, QuadAt(P, t.m, t.lo, i), t.m / 2))
  {
    hide QuadAt, Sensible;
    var p := RunWithHandles(P, t, m).rest;
    var part := (q: nat) requires q < 4 && t.m <= MAX_N =>
      if t.Setup? then Setup(t.j, QuadAt(P, t.m, t.lo, q), t.m / 2) else Finish(t.j, QuadAt(P, t.m, t.lo, q), t.m / 2);
    assert t.m <= MAX_N by { PartSize(P, t, m); }
    FourFree(part(0), part(1), part(2), part(3), k);
    assert p == FourParts(part(0), part(1), part(2), part(3));
    Futures.BranchesMoveFreely(HandleLang(P, |m|), p.(started := k), k, m, p, m);
    hide Futures.Moves;
  }

  lemma PartSize(P: Params, t: Task, m: Mem)
    requires Sensible(P, |m|, t) && (t.Setup? || t.Finish?)
    ensures t.m <= MAX_N
  {
  }

  lemma FourFree(a: Task, b: Task, c: Task, d: Task, k: nat)
    requires k < 3
    ensures var bs := FourParts(a, b, c, d).bs;
      && Futures.NextInBranches(bs, 3, a) && Futures.NextInBranches(bs, 3, b)
      && Futures.NextInBranches(bs, 3, c) && Futures.NextInBranches(bs, 3, d)
      && Futures.Len(bs) == 4 && !Futures.Owned(bs, k)
  {
    var none := Futures.NoBranch;
    var one := Futures.Branch(none, false, Futures.Task(a));
    var two := Futures.Branch(one, false, Futures.Task(b));
    var three := Futures.Branch(two, false, Futures.Task(c));
    hide Futures.NextInBranches, Futures.Owned;
    forall t: Task ensures Futures.NextInBranches(FourParts(a, b, c, d).bs, 3, t) || t !in {a, b, c, d} {
      Futures.OneMoreNext(none, false, a, 3, t);
      Futures.OneMoreNext(one, false, b, 3, t);
      Futures.OneMoreNext(two, false, c, 3, t);
      Futures.OneMoreNext(three, true, d, 3, t);
    }
    Futures.OneMoreNext(none, false, a, 3, a);
    Futures.OneMoreNext(one, false, b, 3, a);
    Futures.OneMoreNext(two, false, c, 3, a);
    Futures.OneMoreNext(three, true, d, 3, a);
  }

  ghost predicate SameAs(p: Futures.Prog<Task>, q: Proc<Task>) {
    Futures.Proper(p) && Futures.Left(p) <= Futures.MOST && Futures.Abs(p) == q
  }

  lemma OneTaskIs(t: Task)
    ensures SameAs(Futures.Task(t), Call(t)) && Futures.Left(Futures.Task(t)) == 0
  {
  }

  lemma MultiplyCodeIs(P: Params, j: Mult)
    requires j.n <= MAX_N
    ensures SameAs(MultiplyCode(P, j), RunMultiply(P, j))
  {
    hide ProductFutures, Products, Big;
    var setup, finish := Setup(j, 0, j.n / 2), Finish(j, 0, j.n / 2);
    if Big(P, j.n) {
      var none: Futures.Branches<Task> := Futures.NoBranch;
      var all := ProductFutures(P, j, 7);
      OneTaskIs(finish);
      ProductFuturesAre(P, j, 7);
      Futures.FreshFork(all, false, Futures.Task(finish));
      Futures.AddTask(none, true, setup);
      Futures.FreshFork(Futures.Branch(none, true, Futures.Task(setup)), false, Futures.Fork(0, all, false, 0, Futures.Task(finish)));
    } else {
      OneTaskIs(Below(Plain(j)));
    }
  }

  lemma FourPartsAre(a: Task, b: Task, c: Task, d: Task)
    ensures SameAs(FourParts(a, b, c, d), FourWays(a, b, c, d))
  {
    var none: Futures.Branches<Task> := Futures.NoBranch;
    var done: Futures.Prog<Task> := Futures.Finished;
    var one := Futures.Branch(none, false, Futures.Task(a));
    var two := Futures.Branch(one, false, Futures.Task(b));
    var three := Futures.Branch(two, false, Futures.Task(c));
    Futures.AddTask(none, false, a);
    Futures.AddTask(one, false, b);
    Futures.AddTask(two, false, c);
    Futures.AddTask(three, true, d);
    assert Futures.Proper(done) && Futures.Left(done) == 0;
    Futures.FreshFork(Futures.Branch(three, true, Futures.Task(d)), false, done);
  }

  lemma PartsAre(P: Params, j: Mult, lo: nat, m: nat)
    requires m <= MAX_N
    ensures SameAs(SetupCode(P, j, lo, m), RunSetup(P, j, lo, m)) && SameAs(FinishCode(P, j, lo, m), RunFinish(P, j, lo, m))
  {
    hide SameAs, FourParts, FourWays, QuadAt;
    if m == Pow2(P.power) {
      OneTaskIs(SetupCells(j, lo, lo + m * m));
      OneTaskIs(FinishCells(j, lo, lo + m * m));
    } else {
      FourPartsAre(Setup(j, QuadAt(P, m, lo, 0), m / 2), Setup(j, QuadAt(P, m, lo, 1), m / 2),
                   Setup(j, QuadAt(P, m, lo, 2), m / 2), Setup(j, QuadAt(P, m, lo, 3), m / 2));
      FourPartsAre(Finish(j, QuadAt(P, m, lo, 0), m / 2), Finish(j, QuadAt(P, m, lo, 1), m / 2),
                   Finish(j, QuadAt(P, m, lo, 2), m / 2), Finish(j, QuadAt(P, m, lo, 3), m / 2));
    }
  }

  lemma SameEffect(P: Params, t: Task, m: Mem)
    requires P.futures && Sensible(P, |m|, t)
    ensures var e, o := RunWithHandles(P, t, m), Run(P, t, m); SameAs(e.rest, o.rest) && e.mem == o.mem
  {
    match t
    case Multiply(j) =>
      MultiplyCodeIs(P, j);
      hide MultiplyCode, RunMultiply, SameAs;
    case Setup(j, lo, k) =>
      PartsAre(P, j, lo, k);
      hide SetupCode, RunSetup, SameAs;
    case Finish(j, lo, k) =>
      PartsAre(P, j, lo, k);
      hide FinishCode, RunFinish, SameAs;
    case Below(u) =>
      BelowIs(P, u, m);
    case _ =>
      hide SumsStored, FinalStored;
  }

  lemma LeavesOneLevel(P: Params, u: MatrixTasks.Task, m: Mem)
    requires MatrixTasks.Sensible(P, |m|, u)
    ensures OneLevel(MatrixFutures.RunWithHandles(P, u, m).rest)
  {
  }

  lemma BelowIs(P: Params, u: MatrixTasks.Task, m: Mem)
    requires P.futures && MatrixTasks.Sensible(P, |m|, u)
    ensures var e, o := MatrixFutures.RunWithHandles(P, u, m), MatrixTasks.Run(P, u, m);
      SameAs(LiftProg(e.rest), Lift(o.rest)) && e.mem == o.mem
  {
    hide MatrixTasks.Sensible, MatrixTasks.Run, MatrixFutures.RunWithHandles, LiftProg, Lift;
    var e, o := MatrixFutures.RunWithHandles(P, u, m), MatrixTasks.Run(P, u, m);
    var F := MatrixFutures.HandleLang(P, |m|);
    assert F.run(u, m) == e && F.lang.run(u, m) == o;
    MatrixFutures.SameWork(P, u, m);
    LeavesOneLevel(P, u, m);
    LiftedProg(e.rest);
  }

  lemma SameWork(P: Params, t: Task, m: Mem)
    requires P.futures && Sensible(P, |m|, t)
    ensures Futures.Amounts(HandleLang(P, |m|), t, m)
  {
    hide Sensible, RunWithHandles, Run;
    var e, o := RunWithHandles(P, t, m), Run(P, t, m);
    assert HandleLang(P, |m|).run(t, m) == e && StrassenLang(P, |m|).run(t, m) == o;
    SameEffect(P, t, m);
  }

  lemma HandlesAreFaithful(P: Params, size: nat)
    requires P.futures
    ensures Futures.Faithful(HandleLang(P, size))
  {
    var F := HandleLang(P, size);
    forall t: Task, m: Mem | F.lang.ok(t) && |m| == size ensures Futures.Amounts(F, t, m) {
      SameWork(P, t, m);
    }
  }

  /** Every schedule of strassen_z with its handles, waits included: the output ends as A * B, nothing changes but the output
      and the scratch space, no schedule is stuck before the end, and none is longer than a bound. */
  lemma EveryHandleScheduleIsTheProduct(P: Params, j: Mult, run: seq<Futures.Setup<Task>>)
    requires P.futures && run != [] && Futures.Schedule(HandleLang(P, |run[0].mem|), run)
    requires run[0].prog == Futures.Task(Multiply(j)) && Fits(P, |run[0].mem|, j)
    ensures var F, last := HandleLang(P, |run[0].mem|), run[|run| - 1];
      && (last.prog.Finished? ==> Multiplied(P, j, last.mem, run[0].mem))
      && Futures.Proper(last.prog)
      && (!last.prog.Finished? ==> Futures.Movable(F, last))
      && Futures.Good(F, run[0]) && |run| - 1 <= Futures.Bound(F, run[0])
  {
    var m := run[0].mem;
    var F := HandleLang(P, |m|);
    HandlesAreFaithful(P, |m|);
    StrassenIsSound(P, |m|);
    MultiplyDone(P, j, m);
    assert Futures.Abs(run[0].prog) == Call(Multiply(j));
    hide Multiplied, Fits, StrassenLang;
    assert Futures.Good(F, run[0]);
    Futures.EverySchedule(F, run);
  }
}
