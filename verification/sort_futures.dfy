/**
 cilksort-future.cpp with its handles: cilksort creates three futures, sorts the last quarter itself and waits for
 sort_futures; creates m for one merge, makes the other itself and waits; and merges.  cilkmerge creates m for the
 lower halves, merges the upper ones itself and waits.
 */
module SortFutures {
  import opened ForkJoin
  import opened SortTasks
  import QuickTasks
  import Futures

  /** A future for the first and a call for the second. */
  function OneFuture(t: Task, u: Task): Futures.Branches<Task> {
    Futures.Branch(Futures.Branch(Futures.NoBranch, false, Futures.Task(t)), true, Futures.Task(u))
  }

  function ThreeFutures(a: Task, b: Task, c: Task, d: Task): Futures.Branches<Task> {
    Futures.Branch(Futures.Branch(Futures.Branch(Futures.Branch(Futures.NoBranch, false, Futures.Task(a)),
                                                 false, Futures.Task(b)), false, Futures.Task(c)), true, Futures.Task(d))
  }

  /** cilksort's code from the first future on. */
  function SortCode(low: int, tmp: int, size: int, q: int): Futures.Prog<Task> {
    Futures.Fork(0, ThreeFutures(Sort(low, tmp, q), Sort(low + q, tmp + q, q), Sort(low + 2 * q, tmp + 2 * q, q),
                                 Sort(low + 3 * q, tmp + 3 * q, size - 3 * q)), true, 0,
      Futures.Fork(0, OneFuture(Merge(AB(low, tmp, q)), Merge(CD(low, tmp, size, q))), true, 0,
        Futures.Task(Merge(Whole(low, tmp, size, q)))))
  }

  function MergeCode(g: Ranges, split2: int): Futures.Prog<Task> {
    Futures.Fork(0, OneFuture(Merge(Lower(g, split2)), Merge(Upper(g, split2))), true, 0, Futures.Finished)
  }

  /** Calls, one after the other; no futures. */
  function Called(p: Proc<Task>): Futures.Prog<Task> {
    match p
    case Call(t) => Futures.Task(t)
    case Then(Call(t), Call(u)) => Futures.Fork(0, Futures.Branch(Futures.NoBranch, true, Futures.Task(t)), true, 0, Futures.Task(u))
    case _ => Futures.Finished
  }

  ghost function RunWithHandles(P: Params, t: Task, m: Mem): Futures.Effect<Task>
    requires Allowed(P) && Sensible(P, |m|, t)
  {
    var o := Run(P, t, m);
    match t
    case Sort(low, tmp, size) =>
      if size < P.quickSize then Futures.Effect(Futures.Task(o.rest.task), m) else Futures.Effect(SortCode(low, tmp, size, size / 4), m)
    case Merge(_) => Futures.Effect(Futures.Task(o.rest.task), m)
    case Split(g, lo, hi) =>
      if lo != hi then Futures.Effect(Futures.Task(o.rest.task), m)
      else Futures.Effect(MergeCode(g, if m[lo] > m[g.Middle()] then lo - 1 else lo), o.mem)
    case Leaf(_) => Futures.Effect(Called(o.rest), o.mem)
    case Copying(_) => Futures.Effect(if o.rest.Call? then Futures.Task(o.rest.task) else Futures.Finished, o.mem)
  }

  ghost function HandleLang(P: Params, n: nat): Futures.FutureLang<Task>
    requires Allowed(P)
  {
    Futures.FutureLang(SortLang(P, n),
                       (t: Task, m: Mem) => if Sensible(P, |m|, t) then RunWithHandles(P, t, m) else Futures.Effect(Futures.Finished, m))
  }

  /** Creating, calling and waiting amounts to running side by side and joining. */
  lemma SortCodeIs(low: int, tmp: int, size: int, q: int)
    ensures var p := SortCode(low, tmp, size, q);
      && Futures.Abs(p) == Then(Sorts(low, tmp, size, q), Then(Merges(low, tmp, size, q), Last(low, tmp, size, q)))
      && Futures.Proper(p) && Futures.Left(p) <= Futures.MOST
  {
    hide OneFuture, ThreeFutures, AB, CD, Whole;
    var a, b := Sort(low, tmp, q), Sort(low + q, tmp + q, q);
    var c, d := Sort(low + 2 * q, tmp + 2 * q, q), Sort(low + 3 * q, tmp + 3 * q, size - 3 * q);
    var ab, cd, last := Merge(AB(low, tmp, q)), Merge(CD(low, tmp, size, q)), Merge(Whole(low, tmp, size, q));
    FourBranches(a, b, c, d);
    TwoBranches(ab, cd);
    var merging := Futures.Fork(0, OneFuture(ab, cd), true, 0, Futures.Task(last));
    assert Futures.Proper(Futures.Task(last)) && Futures.Left(Futures.Task(last)) == 0 && Futures.Abs(Futures.Task(last)) == Call(last);
    Futures.FreshFork(OneFuture(ab, cd), true, Futures.Task(last));
    Futures.FreshFork(ThreeFutures(a, b, c, d), true, merging);
  }

  lemma MergeCodeIs(g: Ranges, split2: int)
    ensures var p := MergeCode(g, split2); Futures.Abs(p) == Halves(g, split2) && Futures.Proper(p) && Futures.Left(p) <= Futures.MOST
  {
    hide OneFuture, Lower, Upper;
    var t, u := Merge(Lower(g, split2)), Merge(Upper(g, split2));
    TwoBranches(t, u);
    var done: Futures.Prog<Task> := Futures.Finished;
    assert Futures.Proper(done) && Futures.Left(done) == 0;
    Futures.FreshFork(OneFuture(t, u), true, done);
  }

  lemma TwoBranches(t: Task, u: Task)
    ensures var bs := OneFuture(t, u);
      && Futures.AbsAll(bs) == Par(Call(t), Call(u)) && Futures.Fresh(bs) && Futures.Len(bs) == 2
  {
    var none := Futures.NoBranch;
    var one := Futures.Branch(none, false, Futures.Task(t));
    Futures.AddTask(none, false, t);
    Futures.AddTask(one, true, u);
  }

  lemma FourBranches(a: Task, b: Task, c: Task, d: Task)
    ensures var bs := ThreeFutures(a, b, c, d);
      && Futures.AbsAll(bs) == Par(Par(Par(Call(a), Call(b)), Call(c)), Call(d))
      && Futures.Fresh(bs) && Futures.Len(bs) == 4
  {
    var none := Futures.NoBranch;
    var one := Futures.Branch(none, false, Futures.Task(a));
    var two := Futures.Branch(one, false, Futures.Task(b));
    Futures.AddTask(none, false, a);
    Futures.AddTask(one, false, b);
    Futures.AddTask(two, false, c);
    Futures.AddTask(Futures.Branch(two, false, Futures.Task(c)), true, d);
  }

  /** Nothing has to finish before the three futures are created, to be got from the last to the first; and then any of the four sorts can be next; and likewise
      either of the two merges after them. */
  ghost predicate SortsFree(F: Futures.FutureLang<Task>, p: Futures.Prog<Task>, low: int, tmp: int, size: int, q: int, m: Mem) {
    && p.Fork? && p.started == 0 && p.down && (forall k: nat :: k < 3 ==> Creates(F, p, k, m))
    && var free := p.(started := 3);
    && Futures.CanBeNext(free, Sort(low, tmp, q)) && Futures.CanBeNext(free, Sort(low + q, tmp + q, q))
    && Futures.CanBeNext(free, Sort(low + 2 * q, tmp + 2 * q, q)) && Futures.CanBeNext(free, Sort(low + 3 * q, tmp + 3 * q, size - 3 * q))
    && p.rest.Fork? && p.rest.started == 0 && Creates(F, p.rest, 0, m)
    && var free' := p.rest.(started := 1);
    && Futures.CanBeNext(free', Merge(AB(low, tmp, q))) && Futures.CanBeNext(free', Merge(CD(low, tmp, size, q)))
  }

  ghost predicate HalvesFree(F: Futures.FutureLang<Task>, p: Futures.Prog<Task>, lower: Task, upper: Task, m: Mem) {
    && p.Fork? && p.started == 0 && Creates(F, p, 0, m)
    && Futures.CanBeNext(p.(started := 1), lower) && Futures.CanBeNext(p.(started := 1), upper)
  }

  ghost predicate Creates(F: Futures.FutureLang<Task>, p: Futures.Prog<Task>, k: nat, m: Mem)
    requires p.Fork?
  {
    Futures.Moves(F, p.(started := k), m, p.(started := k + 1), m)
  }

  /** Above the sizes where they turn sequential, a sort's parts and a merge's halves go on side by side. */
  lemma FuturesSideBySide(P: Params, t: Task, m: Mem)
    requires Allowed(P) && Sensible(P, |m|, t)
    ensures t.Sort? && P.quickSize <= t.size ==>
      SortsFree(HandleLang(P, |m|), RunWithHandles(P, t, m).rest, t.low, t.tmp, t.size, t.size / 4, m)
    ensures t.Split? && t.lo == t.hi ==>
      var halves := Run(P, t, m).rest;
      && halves.Par? && halves.left.Call? && halves.right.Call?
      && HalvesFree(HandleLang(P, |m|), RunWithHandles(P, t, m).rest, halves.left.task, halves.right.task, m)
  {
    hide SortsFree, HalvesFree, SortCode, MergeCode, Lower, Upper, Place, HandleLang;
    match t
    case Sort(low, tmp, size) => SortsSideBySide(HandleLang(P, |m|), low, tmp, size, size / 4, m);
    case Split(g, lo, hi) =>
      if lo == hi {
        HalvesSideBySide(HandleLang(P, |m|), g, if m[lo] > m[g.Middle()] then lo - 1 else lo, m);
      }
    case _ =>
  }

  lemma SortsSideBySide(F: Futures.FutureLang<Task>, low: int, tmp: int, size: int, q: int, m: Mem)
    ensures SortsFree(F, SortCode(low, tmp, size, q), low, tmp, size, q, m)
  {
    hide AB, CD, Whole, ThreeFutures, OneFuture;
    var p := SortCode(low, tmp, size, q);
    var a, b := Sort(low, tmp, q), Sort(low + q, tmp + q, q);
    var c, d := Sort(low + 2 * q, tmp + 2 * q, q), Sort(low + 3 * q, tmp + 3 * q, size - 3 * q);
    FourSideBySide(a, b, c, d);
    TwoSideBySide(Merge(AB(low, tmp, q)), Merge(CD(low, tmp, size, q)));
    forall k: nat | k < 3 ensures Creates(F, p, k, m) {
      Futures.BranchesMoveFreely(F, p.(started := k), k, m, p, m);
    }
    Futures.BranchesMoveFreely(F, p.rest, 0, m, p, m);
    hide Futures.Moves;
  }

  lemma HalvesSideBySide(F: Futures.FutureLang<Task>, g: Ranges, split2: int, m: Mem)
    ensures HalvesFree(F, MergeCode(g, split2), Merge(Lower(g, split2)), Merge(Upper(g, split2)), m)
  {
    hide Lower, Upper, OneFuture;
    var p := MergeCode(g, split2);
    TwoSideBySide(Merge(Lower(g, split2)), Merge(Upper(g, split2)));
    Futures.BranchesMoveFreely(F, p, 0, m, p, m);
    hide Futures.Moves;
  }

  lemma TwoSideBySide(t: Task, u: Task)
    ensures var bs := OneFuture(t, u);
      && Futures.NextInBranches(bs, 1, t) && Futures.NextInBranches(bs, 1, u) && Futures.Len(bs) == 2 && !Futures.Owned(bs, 0)
  {
    var none := Futures.NoBranch;
    Futures.OneMoreNext(none, false, t, 1, t);
    Futures.OneMoreNext(Futures.Branch(none, false, Futures.Task(t)), true, u, 1, t);
    Futures.OneMoreNext(Futures.Branch(none, false, Futures.Task(t)), true, u, 1, u);
  }

  lemma FourSideBySide(a: Task, b: Task, c: Task, d: Task)
    ensures var bs := ThreeFutures(a, b, c, d);
      && Futures.NextInBranches(bs, 3, a) && Futures.NextInBranches(bs, 3, b)
      && Futures.NextInBranches(bs, 3, c) && Futures.NextInBranches(bs, 3, d)
      && Futures.Len(bs) == 4 && forall i: nat :: i < 3 ==> !Futures.Owned(bs, i)
  {
    var none := Futures.NoBranch;
    var one := Futures.Branch(none, false, Futures.Task(a));
    var two := Futures.Branch(one, false, Futures.Task(b));
    var three := Futures.Branch(two, false, Futures.Task(c));
    hide Futures.NextInBranches, Futures.Owned;
    forall t: Task ensures Futures.NextInBranches(ThreeFutures(a, b, c, d), 3, t) || t !in {a, b, c, d} {
      Futures.OneMoreNext(none, false, a, 3, t);
      Futures.OneMoreNext(one, false, b, 3, t);
      Futures.OneMoreNext(two, false, c, 3, t);
      Futures.OneMoreNext(three, true, d, 3, t);
    }
    Futures.OneMoreNext(none, false, a, 3, a);
    Futures.OneMoreNext(one, false, b, 3, a);
    Futures.OneMoreNext(two, false, c, 3, a);
    Futures.OneMoreNext(three, true, d, 3, a);
  }

  lemma SameWork(P: Params, t: Task, m: Mem)
    requires Allowed(P) && Sensible(P, |m|, t)
    ensures Futures.Amounts(HandleLang(P, |m|), t, m)
  {
    hide Sensible, RunWithHandles, Run;
    var e, o := RunWithHandles(P, t, m), Run(P, t, m);
    assert HandleLang(P, |m|).run(t, m) == e && SortLang(P, |m|).run(t, m) == o;
    SameEffect(P, t, m);
  }

  lemma SameEffect(P: Params, t: Task, m: Mem)
    requires Allowed(P) && Sensible(P, |m|, t)
    ensures var e, o := RunWithHandles(P, t, m), Run(P, t, m);
      Futures.Proper(e.rest) && Futures.Left(e.rest) <= Futures.MOST && Futures.Abs(e.rest) == o.rest && e.mem == o.mem
  {
    match t
    case Sort(low, tmp, size) =>
      SortCodeIs(low, tmp, size, size / 4);
      hide SortCode, Sorts, Merges, Last;
    case Split(g, lo, hi) =>
      if lo == hi {
        MergeCodeIs(g, if m[lo] > m[g.Middle()] then lo - 1 else lo);
      }
      hide MergeCode, Halves, Place;
    case Leaf(s) =>
      CalledIs(P, QuickTasks.Run(P.insertionSize, s, m).next);
      hide Called, Following;
    case _ =>
  }

  lemma CalledIs(P: Params, next: QuickTasks.Next)
    ensures var p := Called(Following(next)); Futures.Proper(p) && Futures.Left(p) <= Futures.MOST && Futures.Abs(p) == Following(next)
  {
    match next
    case Both(c, d) =>
      var none: Futures.Branches<Task>, u: Futures.Prog<Task> := Futures.NoBranch, Futures.Task(Leaf(d));
      Futures.AddTask(none, true, Leaf(c));
      assert Futures.Proper(u) && Futures.Left(u) == 0;
      Futures.FreshFork(Futures.Branch(none, true, Futures.Task(Leaf(c))), true, u);
    case _ =>
  }

  lemma HandlesAreFaithful(P: Params, n: nat)
    requires Allowed(P)
    ensures Futures.Faithful(HandleLang(P, n))
  {
    var F := HandleLang(P, n);
    forall t: Task, m: Mem | F.lang.ok(t) && |m| == n ensures Futures.Amounts(F, t, m) {
      SameWork(P, t, m);
    }
  }

  /** Every schedule of cilksort with its handles, waits included: the array ends up sorted with the same elements, nothing
      but it and its scratch space changes, no schedule is stuck before the end, and none is longer than a bound. */
  lemma EveryHandleScheduleSorts(P: Params, low: int, tmp: int, size: int, run: seq<Futures.Setup<Task>>)
    requires Allowed(P) && run != [] && Futures.Schedule(HandleLang(P, |run[0].mem|), run)
    requires run[0].prog == Futures.Task(Sort(low, tmp, size)) && Sensible(P, |run[0].mem|, Sort(low, tmp, size))
    ensures var F, last := HandleLang(P, |run[0].mem|), run[|run| - 1];
      && (last.prog.Finished? ==> SortDone(low, tmp, size, run[0].mem, last.mem))
      && Futures.Proper(last.prog)
      && (!last.prog.Finished? ==> Futures.Movable(F, last))
      && Futures.Good(F, run[0]) && |run| - 1 <= Futures.Bound(F, run[0])
  {
    var m := run[0].mem;
    var F := HandleLang(P, |m|);
    HandlesAreFaithful(P, |m|);
    SortIsSound(P, |m|);
    SortSorts(P, low, tmp, size, m);
    assert Futures.Abs(run[0].prog) == Call(Sort(low, tmp, size));
    assert Futures.Good(F, run[0]);
    Futures.EverySchedule(F, run);
  }
}
