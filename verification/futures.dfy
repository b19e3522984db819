/**
 Futures with handles, in the two shapes the programs use.

 A block creates one future per handle, one after the other, then spawns one call per handle, each of which starts
 by waiting for its handle; the block returns when all its calls have.  This is the shape of mm_dac_z in
 strassen-future.cpp, with fhandles, and of mat_mul_par in matmul-future.cpp, with stages.

 A fork creates any number of futures, makes calls of its own among that, then waits for the handles one after
 the other, and goes on.  This is the shape of cilksort and cilkmerge in cilksort-future.cpp, with sort_futures and
 m, and of strassen_z, whose final_add waits for all seven fhandles; without handles it is a spawn and its sync.

 Whatever order the scheduler picks, such programs do what the fork-join program does in which each waiting call is
 sequenced behind its future, and in which what is created before the waits runs side by side.
 */
module Futures {
  import opened ForkJoin

  /** One handle: the future that fulfils it, and the call that waits for it; `got` once the wait is over. */
  datatype Lane<T> = Lane(first: Prog<T>, got: bool, second: Prog<T>)

  /** A block's strand has executed its first `pc` instructions: create handles 0 to 3, then spawn calls 0 to 3. */
  datatype Prog<T> =
    | Finished
    | Task(task: T)
    | Block(pc: nat, l0: Lane<T>, l1: Lane<T>, l2: Lane<T>, l3: Lane<T>)
    | Fork(started: nat, bs: Branches<T>, down: bool, got: nat, rest: Prog<T>)

  /** What a fork's strand starts, in order: futures, and calls of its own.  It has got through `started` of them and waited for
      `got`, from the first on or from the last on down, and goes on with `rest`. */
  datatype Branches<T> = NoBranch | Branch(before: Branches<T>, own: bool, p: Prog<T>)

  function Len<T>(bs: Branches<T>): nat {
    if bs.NoBranch? then 0 else Len(bs.before) + 1
  }

  function Nth<T>(bs: Branches<T>, i: nat): (q: Prog<T>)
    requires i < Len(bs)
    ensures q < bs
  {
    if i == Len(bs.before) then bs.p else Nth(bs.before, i)
  }

  /** The branch that is waited for after `got` others. */
  function Next(n: nat, down: bool, got: nat): (i: nat)
    requires got < n
    ensures i < n
  {
    if down then n - 1 - got else got
  }

  /** Branch i is among the `got` first ones, or last ones, of n. */
  predicate Waited(n: nat, down: bool, got: nat, i: nat) {
    if down then n <= i + got else i < got
  }

  function Owned<T>(bs: Branches<T>, i: nat): bool
    requires i < Len(bs)
  {
    if i == Len(bs.before) then bs.own else Owned(bs.before, i)
  }

  /** Nothing of it has started. */
  predicate Fresh<T>(bs: Branches<T>) {
    bs.Branch? ==> Fresh(bs.before) && (bs.p.Task? || bs.p.Finished?)
  }

  lemma {:induction false} FreshIsProper<T>(bs: Branches<T>, n: nat, down: bool)
    requires Fresh(bs) && Len(bs) <= n
    ensures ProperBranches(bs, 0, n, down, 0) && LeftInAll(bs) == 0
  {
    if bs.Branch? {
      FreshIsProper(bs.before, n, down);
    }
  }

  lemma FreshFork<T>(bs: Branches<T>, down: bool, rest: Prog<T>)
    requires Fresh(bs) && Proper(rest)
    ensures var p := Fork(0, bs, down, 0, rest);
      && Proper(p) && Left(p) == 2 * Len(bs) + 1 + Left(rest) && Abs(p) == AndThen(AbsAll(bs), rest.Finished?, Abs(rest))
  {
    FreshIsProper(bs, Len(bs), down);
  }

  lemma AddTask<T>(before: Branches<T>, own: bool, t: T)
    requires Fresh(before)
    ensures var bs := Branch(before, own, Task(t));
      && AbsAll(bs) == (if before.NoBranch? then Call(t) else Par(AbsAll(before), Call(t))) && Fresh(bs) && Len(bs) == Len(before) + 1
  {
    assert Abs(Task(t)) == Call(t);
  }

  datatype Effect<T> = Effect(rest: Prog<T>, mem: Mem)

  /** What each task does with futures, and the fork-join tasks that is to be compared with. */
  datatype FutureLang<!T> = FutureLang(lang: Lang<T>, run: (T, Mem) -> Effect<T>)

  function At<T>(p: Prog<T>, i: nat): Lane<T>
    requires p.Block? && i < 4
  {
    if i == 0 then p.l0 else if i == 1 then p.l1 else if i == 2 then p.l2 else p.l3
  }

  function With<T>(p: Prog<T>, i: nat, l: Lane<T>): Prog<T>
    requires p.Block? && i < 4
  {
    if i == 0 then p.(l0 := l) else if i == 1 then p.(l1 := l) else if i == 2 then p.(l2 := l) else p.(l3 := l)
  }

  // ---------------------------------------------------------------- steps

  /** Lane i moves: its future runs once it is created; its call, once spawned, waits until the future has
      finished, and then runs. */
  ghost predicate LaneMoves<T(!new)>(F: FutureLang<T>, p: Prog<T>, i: nat, m: Mem, l: Lane<T>, m': Mem)
    requires p.Block? && i < 4
    decreases p, 0
  {
    var was := At(p, i);
    || (i < p.pc && l == was.(first := l.first) && Moves(F, was.first, m, l.first, m'))
    || (4 + i < p.pc && !was.got && was.first.Finished? && l == was.(got := true) && m' == m)
    || (was.got && l == was.(second := l.second) && Moves(F, was.second, m, l.second, m'))
  }

  /** One step of some processor. */
  ghost predicate Moves<T(!new)>(F: FutureLang<T>, p: Prog<T>, m: Mem, p': Prog<T>, m': Mem)
    decreases p, 1
  {
    match p
    case Finished => false
    case Task(t) => p' == F.run(t, m).rest && m' == F.run(t, m).mem
    case Block(pc, l0, l1, l2, l3) =>
      || (pc < 8 && p' == p.(pc := pc + 1) && m' == m)
      || (p'.Block? && exists i: nat :: i < 4 && p' == With(p, i, At(p', i)) && LaneMoves(F, p, i, m, At(p', i), m'))
      || (pc == 8 && Over(l0) && Over(l1) && Over(l2) && Over(l3) && p'.Finished? && m' == m)
    case Fork(pc, bs, down, got, rest) =>
      // create the next future, or return from a call
      || (pc < Len(bs) && (Owned(bs, pc) ==> Nth(bs, pc).Finished?) && p' == p.(started := pc + 1) && m' == m)
      || (p'.Fork? && p' == p.(bs := p'.bs) && BranchMoves(F, bs, pc, m, p'.bs, m'))
      // the next handle is ready
      || (pc == Len(bs) && got < Len(bs) && Nth(bs, Next(Len(bs), down, got)).Finished? && p' == p.(got := got + 1) && m' == m)
      || (pc == Len(bs) && got == Len(bs) && p' == rest && m' == m)
  }

  /** One of the branches moves: a future from its creation on, a call while it is the strand's turn. */
  ghost predicate BranchMoves<T(!new)>(F: FutureLang<T>, bs: Branches<T>, pc: nat, m: Mem, bs': Branches<T>, m': Mem)
    decreases bs, 0
  {
    && bs.Branch? && bs'.Branch?
    && ((bs' == bs.(before := bs'.before) && BranchMoves(F, bs.before, pc, m, bs'.before, m'))
        || (bs' == bs.(p := bs'.p) && Runs(bs.own, Len(bs.before), pc) && Moves(F, bs.p, m, bs'.p, m')))
  }

  predicate Runs(own: bool, i: nat, pc: nat) {
    if own then i == pc else i < pc
  }

  predicate Over<T>(l: Lane<T>) {
    l.got && l.second.Finished?
  }

  // ---------------------------------------------------------------- side by side

  /** Whatever the other lanes hold: a created future moves by itself, a call ends its wait as soon as its own future has
      finished, and moves by itself from then on; and the strand goes on creating and spawning without waiting for any. */
  lemma LanesMoveFreely<T(!new)>(F: FutureLang<T>, p: Prog<T>, i: nat, m: Mem, q: Prog<T>, m': Mem)
    requires p.Block? && i < 4
    ensures i < p.pc && Moves(F, At(p, i).first, m, q, m') ==> Moves(F, p, m, With(p, i, At(p, i).(first := q)), m')
    ensures 4 + i < p.pc && !At(p, i).got && At(p, i).first.Finished? ==> Moves(F, p, m, With(p, i, At(p, i).(got := true)), m)
    ensures At(p, i).got && Moves(F, At(p, i).second, m, q, m') ==> Moves(F, p, m, With(p, i, At(p, i).(second := q)), m')
    ensures p.pc < 8 ==> Moves(F, p, m, p.(pc := p.pc + 1), m)
  {
    var l := At(p, i);
    if i < p.pc && Moves(F, l.first, m, q, m') {
      LaneIsFree(F, p, i, m, l.(first := q), m');
    }
    if 4 + i < p.pc && !l.got && l.first.Finished? {
      LaneIsFree(F, p, i, m, l.(got := true), m);
    }
    if l.got && Moves(F, l.second, m, q, m') {
      LaneIsFree(F, p, i, m, l.(second := q), m');
    }
  }

  lemma LaneIsFree<T(!new)>(F: FutureLang<T>, p: Prog<T>, i: nat, m: Mem, l: Lane<T>, m': Mem)
    requires p.Block? && i < 4 && LaneMoves(F, p, i, m, l, m')
    ensures Moves(F, p, m, With(p, i, l), m')
  {
    hide LaneMoves;
    var p' := With(p, i, l);
    assert At(p', i) == l;
    assert p' == With(p, i, At(p', i)) && LaneMoves(F, p, i, m, At(p', i), m');
  }

  function WithNth<T>(bs: Branches<T>, i: nat, q: Prog<T>): Branches<T>
    requires i < Len(bs)
  {
    if i == Len(bs.before) then bs.(p := q) else bs.(before := WithNth(bs.before, i, q))
  }

  /** Whatever the other branches do: a future moves from its creation on, and a call of the strand's own when it is its turn;
      the strand creates, waits and goes on as soon as it itself can. */
  lemma BranchesMoveFreely<T(!new)>(F: FutureLang<T>, p: Prog<T>, i: nat, m: Mem, q: Prog<T>, m': Mem)
    requires p.Fork? && i < Len(p.bs)
    ensures (if Owned(p.bs, i) then i == p.started else i < p.started) && Moves(F, Nth(p.bs, i), m, q, m') ==>
      Moves(F, p, m, p.(bs := WithNth(p.bs, i, q)), m')
    ensures i == p.started && (Owned(p.bs, i) ==> Nth(p.bs, i).Finished?) ==> Moves(F, p, m, p.(started := i + 1), m)
    ensures p.started == Len(p.bs) && p.got < Len(p.bs) && i == Next(Len(p.bs), p.down, p.got) && Nth(p.bs, i).Finished? ==>
      Moves(F, p, m, p.(got := p.got + 1), m)
    ensures p.started == p.got == Len(p.bs) ==> Moves(F, p, m, p.rest, m)
  {
    if (if Owned(p.bs, i) then i == p.started else i < p.started) && Moves(F, Nth(p.bs, i), m, q, m') {
      BranchIsFree(F, p.bs, p.started, i, m, q, m');
    }
  }

  lemma {:induction false} BranchIsFree<T(!new)>(F: FutureLang<T>, bs: Branches<T>, pc: nat, i: nat, m: Mem, q: Prog<T>, m': Mem)
    requires i < Len(bs) && Runs(Owned(bs, i), i, pc) && Moves(F, Nth(bs, i), m, q, m')
    ensures BranchMoves(F, bs, pc, m, WithNth(bs, i, q), m')
  {
    if i < Len(bs.before) {
      BranchIsFree(F, bs.before, pc, i, m, q, m');
    }
  }

  /** Some processor can run task t next. */
  predicate CanBeNext<T(==)>(p: Prog<T>, t: T)
    decreases p, 1
  {
    match p
    case Finished => false
    case Task(u) => u == t
    case Block(pc, l0, l1, l2, l3) =>
      NextInLane(l0, 0 < pc, t) || NextInLane(l1, 1 < pc, t) || NextInLane(l2, 2 < pc, t) || NextInLane(l3, 3 < pc, t)
    case Fork(pc, bs, _, _, _) => NextInBranches(bs, pc, t)
  }

  predicate NextInLane<T(==)>(l: Lane<T>, created: bool, t: T)
    decreases l, 0
  {
    (created && CanBeNext(l.first, t)) || (l.got && CanBeNext(l.second, t))
  }

  predicate NextInBranches<T(==)>(bs: Branches<T>, pc: nat, t: T)
    decreases bs, 0
  {
    bs.Branch? && (NextInBranches(bs.before, pc, t) || (Runs(bs.own, Len(bs.before), pc) && CanBeNext(bs.p, t)))
  }

  lemma {:induction false} NextMoves<T(!new)>(F: FutureLang<T>, p: Prog<T>, m: Mem, t: T) returns (p': Prog<T>)
    requires CanBeNext(p, t)
    ensures Moves(F, p, m, p', F.run(t, m).mem)
    decreases p, 1
  {
    match p
    case Task(_) => p' := F.run(t, m).rest;
    case Block(pc, l0, l1, l2, l3) =>
      var i := if NextInLane(l0, 0 < pc, t) then 0 else if NextInLane(l1, 1 < pc, t) then 1 else if NextInLane(l2, 2 < pc, t) then 2 else 3;
      p' := NextLaneMoves(F, p, i, m, t);
    case Fork(pc, bs, _, _, _) =>
      var bs' := NextBranchMoves(F, bs, pc, m, t);
      p' := p.(bs := bs');
  }

  lemma {:induction false} NextLaneMoves<T(!new)>(F: FutureLang<T>, p: Prog<T>, i: nat, m: Mem, t: T) returns (p': Prog<T>)
    requires p.Block? && i < 4 && NextInLane(At(p, i), i < p.pc, t)
    ensures Moves(F, p, m, p', F.run(t, m).mem)
    decreases p, 0
  {
    var l := At(p, i);
    if i < p.pc && CanBeNext(l.first, t) {
      var q := NextMoves(F, l.first, m, t);
      LanesMoveFreely(F, p, i, m, q, F.run(t, m).mem);
      p' := With(p, i, l.(first := q));
    } else {
      var q := NextMoves(F, l.second, m, t);
      LanesMoveFreely(F, p, i, m, q, F.run(t, m).mem);
      p' := With(p, i, l.(second := q));
    }
  }

  lemma {:induction false} NextBranchMoves<T(!new)>(F: FutureLang<T>, bs: Branches<T>, pc: nat, m: Mem, t: T) returns (bs': Branches<T>)
    requires NextInBranches(bs, pc, t)
    ensures BranchMoves(F, bs, pc, m, bs', F.run(t, m).mem)
    decreases bs, 0
  {
    if NextInBranches(bs.before, pc, t) {
      var before := NextBranchMoves(F, bs.before, pc, m, t);
      bs' := bs.(before := before);
    } else {
      var q := NextMoves(F, bs.p, m, t);
      bs' := bs.(p := q);
    }
  }

  /** With everything before it started, and the last branch the strand's own, one more task that can be next. */
  lemma OneMoreNext<T>(before: Branches<T>, own: bool, t: T, pc: nat, u: T)
    requires if own then pc == Len(before) else Len(before) < pc
    ensures var bs := Branch(before, own, Task(t));
      && (NextInBranches(bs, pc, u) <==> NextInBranches(before, pc, u) || u == t)
      && Len(bs) == Len(before) + 1 && Owned(bs, Len(before)) == own && forall i: nat :: i < Len(before) ==> Owned(bs, i) == Owned(before, i)
  {
    assert CanBeNext(Task(t), u) <==> u == t;
  }

  // ---------------------------------------------------------------- what a program can look like

  /** Nothing runs before it was started, and no call gets past its wait before the future has finished. */
  predicate Ordered<T>(l: Lane<T>, created: bool, spawned: bool) {
    && (!created ==> l.first.Task?)
    && (!spawned ==> !l.got)
    && (!l.got ==> l.second.Task?)
    && (l.got ==> l.first.Finished?)
  }

  predicate Proper<T>(p: Prog<T>) {
    match p
    case Block(pc, l0, l1, l2, l3) =>
      && pc <= 8
      && ProperLane(l0, 0 < pc, 4 < pc) && ProperLane(l1, 1 < pc, 5 < pc) && ProperLane(l2, 2 < pc, 6 < pc) && ProperLane(l3, 3 < pc, 7 < pc)
    case Fork(pc, bs, down, got, rest) =>
      pc <= Len(bs) && got <= Len(bs) && (got > 0 ==> pc == Len(bs)) && ProperBranches(bs, pc, Len(bs), down, got) && Proper(rest)
    case _ => true
  }

  /** Calls the strand has returned from, and branches it has waited for, have finished. */
  predicate ProperBranches<T>(bs: Branches<T>, pc: nat, n: nat, down: bool, got: nat) {
    bs.Branch? ==>
      && ProperBranches(bs.before, pc, n, down, got) && Proper(bs.p)
      && (Waited(n, down, got, Len(bs.before)) || (bs.own && Len(bs.before) < pc) ==> bs.p.Finished?)
      && ((if bs.own then pc < Len(bs.before) else pc <= Len(bs.before)) ==> bs.p.Task? || bs.p.Finished?)
  }

  predicate ProperLane<T>(l: Lane<T>, created: bool, spawned: bool) {
    Ordered(l, created, spawned) && Proper(l.first) && Proper(l.second)
  }

  /** The fork-join program with the same work left, where each call comes after its future. */
  function Abs<T>(p: Prog<T>): Proc<T> {
    match p
    case Finished => Done
    case Task(t) => Call(t)
    case Block(_, l0, l1, l2, l3) =>
      Par(Par(Par(AbsLane(l0.got, Abs(l0.first), Abs(l0.second)), AbsLane(l1.got, Abs(l1.first), Abs(l1.second))),
              AbsLane(l2.got, Abs(l2.first), Abs(l2.second))), AbsLane(l3.got, Abs(l3.first), Abs(l3.second)))
    case Fork(_, bs, _, _, rest) => AndThen(AbsAll(bs), rest.Finished?, Abs(rest))
  }

  function AndThen<T>(p: Proc<T>, last: bool, q: Proc<T>): Proc<T> {
    if last then p else Then(p, q)
  }

  /** All branches side by side. */
  function AbsAll<T>(bs: Branches<T>): Proc<T> {
    match bs
    case NoBranch => Done
    case Branch(before, _, q) => if before.NoBranch? then Abs(q) else Par(AbsAll(before), Abs(q))
  }

  function AbsLane<T>(got: bool, first: Proc<T>, second: Proc<T>): Proc<T> {
    if got then second else Then(first, second)
  }

  /** Instructions the strands of blocks and forks have still to execute. */
  function Left<T>(p: Prog<T>): nat {
    match p
    case Block(pc, l0, l1, l2, l3) =>
      Less(8, pc) + LeftInLane(l0) + LeftInLane(l1) + LeftInLane(l2) + LeftInLane(l3)
    case Fork(pc, bs, _, got, rest) => Less(Len(bs), pc) + Less(Len(bs), got) + 1 + LeftInAll(bs) + Left(rest)
    case _ => 0
  }

  function Less(a: nat, b: nat): nat {
    if a < b then 0 else a - b
  }

  function LeftInAll<T>(bs: Branches<T>): nat {
    if bs.NoBranch? then 0 else LeftInAll(bs.before) + Left(bs.p)
  }

  function LeftInLane<T>(l: Lane<T>): nat {
    Left(l.first) + Left(l.second)
  }

  /** A task leaves no more instructions than this. */
  const MOST: nat := 32

  /** Every task leaves work that amounts to what its fork-join counterpart leaves. */
  ghost predicate Faithful<T(!new)>(F: FutureLang<T>) {
    forall t: T, m: Mem :: F.lang.ok(t) && |m| == F.lang.size ==> Amounts(F, t, m)
  }

  ghost predicate Amounts<T>(F: FutureLang<T>, t: T, m: Mem) {
    var e, o := F.run(t, m), F.lang.run(t, m);
    Proper(e.rest) && Left(e.rest) <= MOST && Abs(e.rest) == o.rest && e.mem == o.mem
  }

  // ---------------------------------------------------------------- every step is a fork-join step, or none

  /** A number of fork-join steps. */
  ghost predicate Takes<T(!new)>(L: Lang<T>, n: nat, p: Proc<T>, m: Mem, p': Proc<T>, m': Mem) {
    if n == 0 then p' == p && m' == m
    else exists q: Proc<T>, k: Mem :: ForkJoin.Step(L, p, m, q, k) && Takes(L, n - 1, q, k, p', m')
  }

  lemma TakesOne<T(!new)>(L: Lang<T>, p: Proc<T>, m: Mem, p': Proc<T>, m': Mem)
    requires ForkJoin.Step(L, p, m, p', m')
    ensures Takes(L, 1, p, m, p', m')
  {
    assert Takes(L, 0, p', m', p', m');
  }

  lemma {:induction false} InParLeft<T(!new)>(L: Lang<T>, n: nat, p: Proc<T>, m: Mem, p': Proc<T>, m': Mem, r: Proc<T>)
    requires Takes(L, n, p, m, p', m')
    ensures Takes(L, n, Par(p, r), m, Par(p', r), m')
  {
    if n > 0 {
      var q: Proc<T>, k: Mem :| ForkJoin.Step(L, p, m, q, k) && Takes(L, n - 1, q, k, p', m');
      InParLeft(L, n - 1, q, k, p', m', r);
      assert ForkJoin.Step(L, Par(p, r), m, Par(q, r), k);
    }
  }

  lemma {:induction false} InParRight<T(!new)>(L: Lang<T>, n: nat, p: Proc<T>, m: Mem, p': Proc<T>, m': Mem, r: Proc<T>)
    requires Takes(L, n, p, m, p', m')
    ensures Takes(L, n, Par(r, p), m, Par(r, p'), m')
  {
    if n > 0 {
      var q: Proc<T>, k: Mem :| ForkJoin.Step(L, p, m, q, k) && Takes(L, n - 1, q, k, p', m');
      InParRight(L, n - 1, q, k, p', m', r);
      assert ForkJoin.Step(L, Par(r, p), m, Par(r, q), k);
    }
  }

  lemma {:induction false} InThen<T(!new)>(L: Lang<T>, n: nat, p: Proc<T>, m: Mem, p': Proc<T>, m': Mem, r: Proc<T>)
    requires Takes(L, n, p, m, p', m')
    ensures Takes(L, n, Then(p, r), m, Then(p', r), m')
  {
    if n > 0 {
      var q: Proc<T>, k: Mem :| ForkJoin.Step(L, p, m, q, k) && Takes(L, n - 1, q, k, p', m');
      InThen(L, n - 1, q, k, p', m', r);
      assert ForkJoin.Step(L, Then(p, r), m, Then(q, r), k);
    }
  }

  /** Steps of lane i's counterpart are steps of the block's. */
  lemma InBlock<T(!new)>(L: Lang<T>, n: nat, p: Prog<T>, i: nat, l: Lane<T>, m: Mem, m': Mem)
    requires p.Block? && i < 4
    requires var was := At(p, i);
      Takes(L, n, AbsLane(was.got, Abs(was.first), Abs(was.second)), m, AbsLane(l.got, Abs(l.first), Abs(l.second)), m')
    ensures Takes(L, n, Abs(p), m, Abs(With(p, i, l)), m')
  {
    hide Takes, AbsLane;
    var was := At(p, i);
    var a, b := AbsLane(was.got, Abs(was.first), Abs(was.second)), AbsLane(l.got, Abs(l.first), Abs(l.second));
    var a0, a1 := AbsLane(p.l0.got, Abs(p.l0.first), Abs(p.l0.second)), AbsLane(p.l1.got, Abs(p.l1.first), Abs(p.l1.second));
    var a2, a3 := AbsLane(p.l2.got, Abs(p.l2.first), Abs(p.l2.second)), AbsLane(p.l3.got, Abs(p.l3.first), Abs(p.l3.second));
    if i == 0 {
      InParLeft(L, n, a, m, b, m', a1);
      InParLeft(L, n, Par(a, a1), m, Par(b, a1), m', a2);
      InParLeft(L, n, Par(Par(a, a1), a2), m, Par(Par(b, a1), a2), m', a3);
    } else if i == 1 {
      InParRight(L, n, a, m, b, m', a0);
      InParLeft(L, n, Par(a0, a), m, Par(a0, b), m', a2);
      InParLeft(L, n, Par(Par(a0, a), a2), m, Par(Par(a0, b), a2), m', a3);
    } else if i == 2 {
      InParRight(L, n, a, m, b, m', Par(a0, a1));
      InParLeft(L, n, Par(Par(a0, a1), a), m, Par(Par(a0, a1), b), m', a3);
    } else {
      InParRight(L, n, a, m, b, m', Par(Par(a0, a1), a2));
    }
  }

  lemma TakesThree<T(!new)>(L: Lang<T>, m: Mem)
    ensures Takes(L, 3, Par(Par(Par(Done, Done), Done), Done), m, Done, m)
  {
    TakesOne(L, Par(Done, Done), m, Done, m);
    assert Takes(L, 2, Par(Par(Done, Done), Done), m, Done, m) by {
      assert ForkJoin.Step(L, Par(Par(Done, Done), Done), m, Par(Done, Done), m);
    }
    assert ForkJoin.Step(L, Par(Par(Par(Done, Done), Done), Done), m, Par(Par(Done, Done), Done), m);
  }

  /** The tasks of lane i, wherever it is, are tasks of the block. */
  lemma LaneRaceFree<T>(L: Lang<T>, p: Prog<T>, i: nat)
    requires p.Block? && i < 4 && Proper(p) && RaceFree(L, Abs(p))
    ensures ProperLane(At(p, i), i < p.pc, 4 + i < p.pc)
    ensures RaceFree(L, Abs(At(p, i).second)) && RaceFree(L, Abs(At(p, i).first))
  {
    hide Apart;
    var a0, a1 := AbsLane(p.l0.got, Abs(p.l0.first), Abs(p.l0.second)), AbsLane(p.l1.got, Abs(p.l1.first), Abs(p.l1.second));
    var a2, a3 := AbsLane(p.l2.got, Abs(p.l2.first), Abs(p.l2.second)), AbsLane(p.l3.got, Abs(p.l3.first), Abs(p.l3.second));
    assert Abs(p) == Par(Par(Par(a0, a1), a2), a3);
    assert RaceFree(L, Par(Par(a0, a1), a2)) && RaceFree(L, a3);
    assert RaceFree(L, Par(a0, a1)) && RaceFree(L, a2);
    assert RaceFree(L, a0) && RaceFree(L, a1);
    var l := At(p, i);
    assert RaceFree(L, AbsLane(l.got, Abs(l.first), Abs(l.second)));
  }

  /** One lane's move, as fork-join steps of its counterpart. */
  lemma {:induction false} LaneRefines<T(!new)>(F: FutureLang<T>, p: Prog<T>, i: nat, m: Mem, l: Lane<T>, m': Mem) returns (n: nat)
    requires Faithful(F) && Proper(p) && RaceFree(F.lang, Abs(p)) && |m| == F.lang.size
    requires p.Block? && i < 4 && LaneMoves(F, p, i, m, l, m')
    ensures var was := At(p, i);
      && Takes(F.lang, n, AbsLane(was.got, Abs(was.first), Abs(was.second)), m, AbsLane(l.got, Abs(l.first), Abs(l.second)), m')
      && LeftInLane(l) < LeftInLane(was) + (MOST + 1) * n
    ensures ProperLane(l, i < p.pc, 4 + i < p.pc)
    decreases p, 0
  {
    var was, L := At(p, i), F.lang;
    LaneRaceFree(L, p, i);
    assert Ordered(was, i < p.pc, 4 + i < p.pc);
    if i < p.pc && l == was.(first := l.first) && Moves(F, was.first, m, l.first, m') {
      assert !was.got;
      n := MovesRefine(F, was.first, m, l.first, m');
      InThen(L, n, Abs(was.first), m, Abs(l.first), m', Abs(was.second));
    } else if was.got {
      n := MovesRefine(F, was.second, m, l.second, m');
    } else {
      n := 1;
      TakesOne(L, Then(Done, Abs(was.second)), m, Abs(was.second), m);
    }
  }

  /** Every move is a number of fork-join steps of the counterpart; when it is none, the block's own strand went on. */
  lemma {:induction false} MovesRefine<T(!new)>(F: FutureLang<T>, p: Prog<T>, m: Mem, p': Prog<T>, m': Mem) returns (n: nat)
    requires Faithful(F) && Proper(p) && RaceFree(F.lang, Abs(p)) && |m| == F.lang.size && Moves(F, p, m, p', m')
    ensures Takes(F.lang, n, Abs(p), m, Abs(p'), m') && Left(p') < Left(p) + (MOST + 1) * n && Proper(p')
    decreases p, 2
  {
    match p
    case Task(t) =>
      n := 1;
      assert F.lang.ok(t) && Amounts(F, t, m);
      TakesOne(F.lang, Abs(p), m, Abs(p'), m');
    case Block(_, _, _, _, _) =>
      hide Faithful, Takes, Abs, Left, Proper, Moves, RaceFree;
      n := BlockRefines(F, p, m, p', m');
    case Fork(_, _, _, _, _) =>
      hide Faithful, Takes, Abs, Left, Proper, Moves, RaceFree;
      n := ForkRefines(F, p, m, p', m');
  }

  lemma {:induction false} BlockRefines<T(!new)>(F: FutureLang<T>, p: Prog<T>, m: Mem, p': Prog<T>, m': Mem) returns (n: nat)
    requires p.Block? && Faithful(F) && Proper(p) && RaceFree(F.lang, Abs(p)) && |m| == F.lang.size && Moves(F, p, m, p', m')
    ensures Takes(F.lang, n, Abs(p), m, Abs(p'), m') && Left(p') < Left(p) + (MOST + 1) * n && Proper(p')
    decreases p, 1
  {
    if p.pc < 8 && p' == p.(pc := p.pc + 1) && m' == m {
      n := 0;
    } else if p'.Block? {
      var i: nat :| i < 4 && p' == With(p, i, At(p', i)) && LaneMoves(F, p, i, m, At(p', i), m');
      hide Faithful, Takes, RaceFree;
      n := LaneRefines(F, p, i, m, At(p', i), m');
      InBlock(F.lang, n, p, i, At(p', i), m, m');
      ProperWith(p, i, At(p', i), n);
    } else {
      n := 3;
      TakesThree(F.lang, m);
    }
  }

  lemma {:induction false} ForkRefines<T(!new)>(F: FutureLang<T>, p: Prog<T>, m: Mem, p': Prog<T>, m': Mem) returns (n: nat)
    requires p.Fork? && Faithful(F) && Proper(p) && RaceFree(F.lang, Abs(p)) && |m| == F.lang.size && Moves(F, p, m, p', m')
    ensures Takes(F.lang, n, Abs(p), m, Abs(p'), m') && Left(p') < Left(p) + (MOST + 1) * n && Proper(p')
    decreases p, 1
  {
    var bs, rest := p.bs, p.rest;
    if p'.Fork? && p' == p.(bs := p'.bs) && BranchMoves(F, bs, p.started, m, p'.bs, m') {
      ForkRaceFree(F.lang, p);
      hide Faithful, Takes, RaceFree, BranchMoves;
      n := BranchesRefine(F, bs, p.started, Len(bs), p.down, p.got, m, p'.bs, m');
      hide ProperBranches;
      if !rest.Finished? {
        InThen(F.lang, n, AbsAll(bs), m, AbsAll(p'.bs), m', Abs(rest));
      }
    } else if p.started == Len(bs) && p.got == Len(bs) && p' == rest && m' == m {
      n := GoesOn(F.lang, p, m);
    } else {
      n := 0;
      StillProper(bs, Len(bs), p.down, p.started, p.got, p'.started, p'.got);
    }
  }

  /** A branch's move, as fork-join steps of its counterpart. */
  lemma {:induction false} BranchesRefine<T(!new)>(F: FutureLang<T>, bs: Branches<T>, pc: nat, k: nat, down: bool, got: nat, m: Mem, bs': Branches<T>, m': Mem)
    returns (n: nat)
    requires Faithful(F) && ProperBranches(bs, pc, k, down, got) && RaceFree(F.lang, AbsAll(bs)) && |m| == F.lang.size
    requires BranchMoves(F, bs, pc, m, bs', m')
    ensures Takes(F.lang, n, AbsAll(bs), m, AbsAll(bs'), m') && LeftInAll(bs') < LeftInAll(bs) + (MOST + 1) * n
    ensures Len(bs') == Len(bs) && ProperBranches(bs', pc, k, down, got)
    decreases bs, 0
  {
    hide Apart, Takes, Faithful;
    var before := bs.before;
    if bs' == bs.(before := bs'.before) && BranchMoves(F, before, pc, m, bs'.before, m') {
      n := BranchesRefine(F, before, pc, k, down, got, m, bs'.before, m');
      InParLeft(F.lang, n, AbsAll(before), m, AbsAll(bs'.before), m', Abs(bs.p));
    } else {
      n := MovesRefine(F, bs.p, m, bs'.p, m');
      if before.Branch? {
        InParRight(F.lang, n, Abs(bs.p), m, Abs(bs'.p), m', AbsAll(before));
      }
    }
  }

  lemma ForkRaceFree<T>(L: Lang<T>, p: Prog<T>)
    requires p.Fork? && RaceFree(L, Abs(p))
    ensures RaceFree(L, AbsAll(p.bs))
  {
  }

  /** Going on with the next instruction keeps the branches proper. */
  lemma {:induction false} StillProper<T>(bs: Branches<T>, n: nat, down: bool, pc: nat, got: nat, pc': nat, got': nat)
    requires ProperBranches(bs, pc, n, down, got) && pc <= pc' && got <= got'
    requires forall i: nat :: i < Len(bs) && (Waited(n, down, got', i) || (Owned(bs, i) && i < pc')) ==>
      Waited(n, down, got, i) || (Owned(bs, i) && i < pc) || Nth(bs, i).Finished?
    ensures ProperBranches(bs, pc', n, down, got')
  {
    if bs.Branch? {
      var k := Len(bs.before);
      forall i: nat | i < k ensures Nth(bs, i) == Nth(bs.before, i) && Owned(bs, i) == Owned(bs.before, i) {
      }
      StillProper(bs.before, n, down, pc, got, pc', got');
      assert Nth(bs, k) == bs.p && Owned(bs, k) == bs.own;
    }
  }

  /** With everything waited for, nothing is left of the branches. */
  lemma GoesOn<T(!new)>(L: Lang<T>, p: Prog<T>, m: Mem) returns (n: nat)
    requires p.Fork? && Proper(p) && p.got == Len(p.bs)
    ensures Takes(L, n, Abs(p), m, Abs(p.rest), m)
  {
    n := Collapse(L, p.bs, p.started, p.got, p.down, m);
    if !p.rest.Finished? {
      InThen(L, n, AbsAll(p.bs), m, Done, m, Abs(p.rest));
      TakesMore(L, n, Abs(p), m, Then(Done, Abs(p.rest)), m, Abs(p.rest), m);
      n := n + 1;
    }
  }

  lemma {:induction false} Collapse<T(!new)>(L: Lang<T>, bs: Branches<T>, pc: nat, k: nat, down: bool, m: Mem) returns (n: nat)
    requires ProperBranches(bs, pc, k, down, k) && Len(bs) <= k
    ensures Takes(L, n, AbsAll(bs), m, Done, m)
  {
    n := 0;
    if bs.Branch? && bs.before.Branch? {
      assert Abs(bs.p) == Done;
      n := Collapse(L, bs.before, pc, k, down, m);
      InParLeft(L, n, AbsAll(bs.before), m, Done, m, Done);
      TakesMore(L, n, AbsAll(bs), m, Par(Done, Done), m, Done, m);
      n := n + 1;
    }
  }

  lemma {:induction false} TakesMore<T(!new)>(L: Lang<T>, n: nat, p: Proc<T>, m: Mem, p': Proc<T>, m': Mem, q: Proc<T>, k: Mem)
    requires Takes(L, n, p, m, p', m') && ForkJoin.Step(L, p', m', q, k)
    ensures Takes(L, n + 1, p, m, q, k)
  {
    if n == 0 {
      TakesOne(L, p, m, q, k);
    } else {
      var r: Proc<T>, j: Mem :| ForkJoin.Step(L, p, m, r, j) && Takes(L, n - 1, r, j, p', m');
      TakesMore(L, n - 1, r, j, p', m', q, k);
    }
  }

  lemma ProperWith<T>(p: Prog<T>, i: nat, l: Lane<T>, n: nat)
    requires p.Block? && i < 4 && Proper(p) && ProperLane(l, i < p.pc, 4 + i < p.pc) && LeftInLane(l) < LeftInLane(At(p, i)) + (MOST + 1) * n
    ensures Proper(With(p, i, l)) && Left(With(p, i, l)) < Left(p) + (MOST + 1) * n
  {
    hide ProperLane, LeftInLane;
  }

  // ---------------------------------------------------------------- every schedule

  lemma {:induction false} TakesIsSerial<T(!new)>(L: Lang<T>, n: nat, p: Proc<T>, m: Mem, p': Proc<T>, m': Mem)
    requires Sound(L) && RaceFree(L, p) && |m| == L.size && Takes(L, n, p, m, p', m')
    ensures RaceFree(L, p') && |m'| == L.size
    ensures Serial(L, p, m) == Final(Serial(L, p', m').mem, Serial(L, p', m').steps + n)
  {
    hide Sound, RaceFree, Serial, ForkJoin.Step;
    if n > 0 {
      var q: Proc<T>, k: Mem :| ForkJoin.Step(L, p, m, q, k) && Takes(L, n - 1, q, k, p', m');
      StepIsSerial(L, p, m, q, k);
      TakesIsSerial(L, n - 1, q, k, p', m');
    }
  }

  datatype Setup<T> = Setup(prog: Prog<T>, mem: Mem)

  /** Any way of running the program, not necessarily to the end. */
  ghost predicate Schedule<T(!new)>(F: FutureLang<T>, run: seq<Setup<T>>) {
    && |run| > 0
    && forall i :: 0 < i < |run| ==> Moves(F, run[i - 1].prog, run[i - 1].mem, run[i].prog, run[i].mem)
  }

  /** Every program is the start of a schedule, and every move continues one. */
  lemma SchedulesGoOn<T(!new)>(F: FutureLang<T>, run: seq<Setup<T>>, c: Setup<T>)
    ensures Schedule(F, [c])
    ensures Schedule(F, run) && Moves(F, run[|run| - 1].prog, run[|run| - 1].mem, c.prog, c.mem) ==> Schedule(F, run + [c])
  {
    hide Moves;
  }

  ghost predicate Good<T(!new)>(F: FutureLang<T>, c: Setup<T>) {
    && Faithful(F) && Sound(F.lang)
    && Proper(c.prog) && RaceFree(F.lang, Abs(c.prog)) && |c.mem| == F.lang.size
  }

  /** What one processor would make of the counterpart. */
  ghost function Outcome<T(!new)>(F: FutureLang<T>, c: Setup<T>): Final
    requires Good(F, c)
  {
    Serial(F.lang, Abs(c.prog), c.mem)
  }

  /** An upper bound on the moves that are left. */
  ghost function Bound<T(!new)>(F: FutureLang<T>, c: Setup<T>): nat
    requires Good(F, c)
  {
    (MOST + 1) * Outcome(F, c).steps + Left(c.prog)
  }

  lemma MoveIsSerial<T(!new)>(F: FutureLang<T>, c: Setup<T>, c': Setup<T>)
    requires Good(F, c) && Moves(F, c.prog, c.mem, c'.prog, c'.mem)
    ensures Good(F, c') && Outcome(F, c').mem == Outcome(F, c).mem && Bound(F, c') < Bound(F, c)
  {
    var n := MovesRefine(F, c.prog, c.mem, c'.prog, c'.mem);
    TakesIsSerial(F.lang, n, Abs(c.prog), c.mem, Abs(c'.prog), c'.mem);
  }

  /** No schedule can change the outcome, and none runs for ever. */
  lemma {:induction false} EveryMoveIsSerial<T(!new)>(F: FutureLang<T>, run: seq<Setup<T>>)
    requires Schedule(F, run) && Good(F, run[0])
    ensures var last := run[|run| - 1];
      Good(F, last) && Outcome(F, last).mem == Outcome(F, run[0]).mem && |run| - 1 + Bound(F, last) <= Bound(F, run[0])
    decreases |run|
  {
    hide Moves, Good, Outcome, Bound;
    if |run| > 1 {
      var init := run[..|run| - 1];
      EveryMoveIsSerial(F, init);
      MoveIsSerial(F, init[|init| - 1], run[|run| - 1]);
    }
  }

  /** Whoever waits waits for something that can move: no schedule is stuck before the end. */
  lemma {:induction false} CanMove<T(!new)>(F: FutureLang<T>, p: Prog<T>, m: Mem) returns (p': Prog<T>, m': Mem)
    requires Proper(p) && !p.Finished?
    ensures Moves(F, p, m, p', m')
  {
    match p
    case Task(t) => p', m' := F.run(t, m).rest, F.run(t, m).mem;
    case Block(pc, l0, l1, l2, l3) =>
      if pc < 8 {
        p', m' := p.(pc := pc + 1), m;
      } else if i: nat :| i < 4 && !Over(At(p, i)) {
        var was := At(p, i);
        var l := was;
        if !was.first.Finished? {
          var q, k := CanMove(F, was.first, m);
          l, m' := was.(first := q), k;
        } else if !was.got {
          l, m' := was.(got := true), m;
        } else {
          var q, k := CanMove(F, was.second, m);
          l, m' := was.(second := q), k;
        }
        p' := With(p, i, l);
        assert At(p', i) == l && LaneMoves(F, p, i, m, l, m');
      } else {
        assert Over(At(p, 0)) && Over(At(p, 1)) && Over(At(p, 2)) && Over(At(p, 3));
        p', m' := Finished, m;
      }
    case Fork(pc, bs, down, got, rest) =>
      if pc < Len(bs) {
        if Owned(bs, pc) && !Nth(bs, pc).Finished? {
          var bs', k := BranchCanMove(F, bs, pc, Len(bs), down, got, pc, m);
          p', m' := p.(bs := bs'), k;
        } else {
          p', m' := p.(started := pc + 1), m;
        }
      } else if got < Len(bs) {
        var i := Next(Len(bs), down, got);
        if Nth(bs, i).Finished? {
          p', m' := p.(got := got + 1), m;
        } else {
          var bs', k := BranchCanMove(F, bs, pc, Len(bs), down, got, i, m);
          p', m' := p.(bs := bs'), k;
        }
      } else {
        p', m' := rest, m;
      }
  }

  lemma {:induction false} BranchCanMove<T(!new)>(F: FutureLang<T>, bs: Branches<T>, pc: nat, n: nat, down: bool, got: nat, i: nat, m: Mem)
    returns (bs': Branches<T>, m': Mem)
    requires ProperBranches(bs, pc, n, down, got) && i < Len(bs) && !Nth(bs, i).Finished?
    requires if Owned(bs, i) then i <= pc else i < pc
    ensures BranchMoves(F, bs, pc, m, bs', m')
  {
    if i == Len(bs.before) {
      var q, k := CanMove(F, bs.p, m);
      bs', m' := bs.(p := q), k;
    } else {
      var b, k := BranchCanMove(F, bs.before, pc, n, down, got, i, m);
      bs', m' := bs.(before := b), k;
    }
  }

  ghost predicate Movable<T(!new)>(F: FutureLang<T>, c: Setup<T>) {
    exists p, m :: Moves(F, c.prog, c.mem, p, m)
  }

  /** Every schedule: it ends, if it does, with what one processor would make of the counterpart; before the end it can
      go on; and it is no longer than a bound known at its start. */
  lemma EverySchedule<T(!new)>(F: FutureLang<T>, run: seq<Setup<T>>)
    requires Schedule(F, run) && Good(F, run[0])
    ensures var last := run[|run| - 1];
      && Proper(last.prog)
      && (if last.prog.Finished? then last.mem == Outcome(F, run[0]).mem else Movable(F, last))
      && |run| - 1 <= Bound(F, run[0])
  {
    var last := run[|run| - 1];
    EveryMoveIsSerial(F, run);
    if last.prog.Finished? {
      assert Outcome(F, last).mem == last.mem;
    } else {
      var p, m := CanMove(F, last.prog, last.mem);
    }
  }
}
