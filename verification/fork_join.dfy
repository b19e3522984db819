/**
 Fork-join programs over one flat memory, and why race-free ones are deterministic.

 A program is a tree of tasks composed in sequence and in parallel: cilk_spawn / cilk_sync, or a
 future and the get that waits for it.  Running a task is one indivisible step that may change memory
 and leaves a program to run in the task's place, so a task can stand for anything from one loop
 iteration to a whole leaf call.  A scheduler may pick any task that is ready.
 */
module ForkJoin {

  type Mem = seq<int>

  datatype Proc<T> =
    | Done
    | Call(task: T)
    | Then(first: Proc<T>, second: Proc<T>)
    | Par(left: Proc<T>, right: Proc<T>)

  /** What running a task does: the program left to run, and the memory. */
  datatype Outcome<T> = Outcome(rest: Proc<T>, mem: Mem)

  /** The tasks of one program: memory size, what a task does, the cells it and everything it starts
      may read and write, a bound on how deep it goes, and which tasks make sense. */
  datatype Lang<!T> = Lang(size: nat, run: (T, Mem) -> Outcome<T>,
                           mayRead: (T, int) -> bool, mayWrite: (T, int) -> bool,
                           rank: T -> nat, ok: T -> bool)

  // ---------------------------------------------------------------- footprints

  ghost predicate Writes<T>(L: Lang<T>, p: Proc<T>, x: int) {
    match p
    case Done => false
    case Call(t) => L.mayWrite(t, x)
    case Then(q, r) => Writes(L, q, x) || Writes(L, r, x)
    case Par(q, r) => Writes(L, q, x) || Writes(L, r, x)
  }

  ghost predicate Touches<T>(L: Lang<T>, p: Proc<T>, x: int) {
    match p
    case Done => false
    case Call(t) => L.mayRead(t, x) || L.mayWrite(t, x)
    case Then(q, r) => Touches(L, q, x) || Touches(L, r, x)
    case Par(q, r) => Touches(L, q, x) || Touches(L, r, x)
  }

  /** Neither writes a cell the other touches. */
  ghost predicate Apart<T>(L: Lang<T>, p: Proc<T>, q: Proc<T>) {
    forall x :: !(Writes(L, p, x) && Touches(L, q, x)) && !(Writes(L, q, x) && Touches(L, p, x))
  }

  /** Every task makes sense and parallel parts do not conflict. */
  ghost predicate RaceFree<T>(L: Lang<T>, p: Proc<T>) {
    match p
    case Done => true
    case Call(t) => L.ok(t)
    case Then(q, r) => RaceFree(L, q) && RaceFree(L, r)
    case Par(q, r) => RaceFree(L, q) && RaceFree(L, r) && Apart(L, q, r)
  }

  ghost function Rank<T>(L: Lang<T>, p: Proc<T>): nat {
    match p
    case Done => 0
    case Call(t) => L.rank(t) + 1
    case Then(q, r) => Max(Rank(L, q), Rank(L, r))
    case Par(q, r) => Max(Rank(L, q), Rank(L, r))
  }

  function Max(a: nat, b: nat): nat {
    if a < b then b else a
  }

  /** q stays within what p may read and write. */
  ghost predicate Inside<T>(L: Lang<T>, q: Proc<T>, p: Proc<T>) {
    forall x :: (Writes(L, q, x) ==> Writes(L, p, x)) && (Touches(L, q, x) ==> Touches(L, p, x))
  }

  ghost predicate Agree<T>(L: Lang<T>, p: Proc<T>, m: Mem, m': Mem) {
    |m| == |m'| && forall x :: 0 <= x < |m| && Touches(L, p, x) ==> m[x] == m'[x]
  }

  ghost predicate Keeps<T>(L: Lang<T>, p: Proc<T>, m: Mem, m': Mem) {
    |m| == |m'| && forall x :: 0 <= x < |m| && !Writes(L, p, x) ==> m[x] == m'[x]
  }

  // ---------------------------------------------------------------- what is asked of the tasks

  /** A task writes only what it says, and leaves a race-free program that stays inside it. */
  ghost predicate Framed<T>(L: Lang<T>, t: T, m: Mem) {
    var o := L.run(t, m);
    Keeps(L, Call(t), m, o.mem) && Under(L, o.rest, t)
  }

  /** What a task may leave to run. */
  ghost predicate Under<T>(L: Lang<T>, p: Proc<T>, t: T) {
    RaceFree(L, p) && Inside(L, p, Call(t)) && Rank(L, p) <= L.rank(t)
  }

  lemma ThenUnder<T>(L: Lang<T>, p: Proc<T>, q: Proc<T>, t: T)
    requires Under(L, p, t) && Under(L, q, t)
    ensures Under(L, Then(p, q), t)
  {
  }

  lemma ParUnder<T>(L: Lang<T>, p: Proc<T>, q: Proc<T>, t: T)
    requires Under(L, p, t) && Under(L, q, t) && Apart(L, p, q)
    ensures Under(L, Par(p, q), t)
  {
  }

  lemma ParApart<T>(L: Lang<T>, p: Proc<T>, q: Proc<T>, r: Proc<T>)
    requires Apart(L, p, r) && Apart(L, q, r)
    ensures Apart(L, Par(p, q), r)
  {
  }

  /** What a task does depends only on the cells it says it touches. */
  ghost predicate Local<T>(L: Lang<T>, t: T, m: Mem, m': Mem) {
    Agree(L, Call(t), m, m') ==>
      L.run(t, m').rest == L.run(t, m).rest && Agree(L, Call(t), L.run(t, m).mem, L.run(t, m').mem)
  }

  ghost predicate Sound<T(!new)>(L: Lang<T>) {
    && (forall t: T, m: Mem :: L.ok(t) && |m| == L.size ==> Framed(L, t, m))
    && (forall t: T, m: Mem, m': Mem :: L.ok(t) && |m| == |m'| == L.size ==> Local(L, t, m, m'))
  }

  // ---------------------------------------------------------------- one processor

  /** Memory at the end, and the number of steps it took. */
  datatype Final = Final(mem: Mem, steps: nat)

  /** Run everything in program order, a spawned task before its continuation. */
  ghost function Serial<T(!new)>(L: Lang<T>, p: Proc<T>, m: Mem): (r: Final)
    requires Sound(L) && RaceFree(L, p) && |m| == L.size
    ensures |r.mem| == L.size
    decreases Rank(L, p), p
  {
    match p
    case Done => Final(m, 0)
    case Call(t) =>
      assert Framed(L, t, m);
      var o := L.run(t, m);
      var r := Serial(L, o.rest, o.mem);
      Final(r.mem, r.steps + 1)
    case Then(q, r) =>
      var a := Serial(L, q, m);
      var b := Serial(L, r, a.mem);
      Final(b.mem, a.steps + b.steps + 1)
    case Par(q, r) =>
      var a := Serial(L, q, m);
      var b := Serial(L, r, a.mem);
      Final(b.mem, a.steps + b.steps + 1)
  }

  lemma {:induction false} WritesTouch<T>(L: Lang<T>, p: Proc<T>, x: int)
    requires Writes(L, p, x)
    ensures Touches(L, p, x)
  {
    match p
    case Done =>
    case Call(_) =>
    case Then(q, r) => if Writes(L, q, x) { WritesTouch(L, q, x); } else { WritesTouch(L, r, x); }
    case Par(q, r) => if Writes(L, q, x) { WritesTouch(L, q, x); } else { WritesTouch(L, r, x); }
  }

  lemma {:induction false} SerialKeeps<T(!new)>(L: Lang<T>, p: Proc<T>, m: Mem)
    requires Sound(L) && RaceFree(L, p) && |m| == L.size
    ensures Keeps(L, p, m, Serial(L, p, m).mem)
    decreases Rank(L, p), p
  {
    match p
    case Done =>
    case Call(t) =>
      assert Framed(L, t, m);
      var o := L.run(t, m);
      SerialKeeps(L, o.rest, o.mem);
    case Then(q, r) =>
      SerialKeeps(L, q, m);
      SerialKeeps(L, r, Serial(L, q, m).mem);
    case Par(q, r) =>
      SerialKeeps(L, q, m);
      SerialKeeps(L, r, Serial(L, q, m).mem);
  }

  /** What a program does depends only on the cells it touches; P is any larger program. */
  lemma {:induction false} SerialLocal<T(!new)>(L: Lang<T>, p: Proc<T>, P: Proc<T>, m: Mem, m': Mem)
    requires Sound(L) && RaceFree(L, p) && |m| == L.size && Inside(L, p, P) && Agree(L, P, m, m')
    ensures Agree(L, P, Serial(L, p, m).mem, Serial(L, p, m').mem)
    ensures Serial(L, p, m).steps == Serial(L, p, m').steps
    decreases Rank(L, p), p
  {
    match p
    case Done =>
    case Call(t) =>
      assert Framed(L, t, m) && Framed(L, t, m') && Local(L, t, m, m');
      var o := L.run(t, m);
      SerialLocal(L, o.rest, P, o.mem, L.run(t, m').mem);
    case Then(q, r) =>
      InPart(L, p, q, r, P);
      SerialLocal(L, q, P, m, m');
      SerialLocal(L, r, P, Serial(L, q, m).mem, Serial(L, q, m').mem);
    case Par(q, r) =>
      InPart(L, p, q, r, P);
      SerialLocal(L, q, P, m, m');
      SerialLocal(L, r, P, Serial(L, q, m).mem, Serial(L, q, m').mem);
  }

  lemma InPart<T>(L: Lang<T>, p: Proc<T>, q: Proc<T>, r: Proc<T>, P: Proc<T>)
    requires p == Then(q, r) || p == Par(q, r)
    requires Inside(L, p, P)
    ensures Inside(L, q, P) && Inside(L, r, P)
  {
    forall x ensures (Writes(L, q, x) ==> Writes(L, P, x)) && (Touches(L, q, x) ==> Touches(L, P, x))
             ensures (Writes(L, r, x) ==> Writes(L, P, x)) && (Touches(L, r, x) ==> Touches(L, P, x)) {
      assert (Writes(L, p, x) ==> Writes(L, P, x)) && (Touches(L, p, x) ==> Touches(L, P, x));
    }
  }

  // ---------------------------------------------------------------- any number of processors

  /** One step of some processor. */
  ghost predicate Step<T(!new)>(L: Lang<T>, p: Proc<T>, m: Mem, p': Proc<T>, m': Mem) {
    match p
    case Done => false
    case Call(t) => p' == L.run(t, m).rest && m' == L.run(t, m).mem
    case Then(q, r) =>
      if q.Done? then p' == r && m' == m
      else p'.Then? && p'.second == r && Step(L, q, m, p'.first, m')
    case Par(q, r) =>
      || (q.Done? && r.Done? && p'.Done? && m' == m)
      || (p'.Par? && p'.right == r && Step(L, q, m, p'.left, m'))
      || (p'.Par? && p'.left == q && Step(L, r, m, p'.right, m'))
  }

  /** m2 with the cells p may write taken from m'. */
  ghost function Patch<T>(L: Lang<T>, p: Proc<T>, m2: Mem, m': Mem): (r: Mem)
    requires |m2| == |m'|
    ensures |r| == |m2|
  {
    seq(|m2|, x requires 0 <= x < |m2| => if Writes(L, p, x) then m'[x] else m2[x])
  }

  lemma {:induction false} StepKeeps<T(!new)>(L: Lang<T>, p: Proc<T>, m: Mem, p': Proc<T>, m': Mem)
    requires Sound(L) && RaceFree(L, p) && |m| == L.size && Step(L, p, m, p', m')
    ensures Keeps(L, p, m, m') && Inside(L, p', p) && RaceFree(L, p')
  {
    match p
    case Call(t) => assert Framed(L, t, m);
    case Then(q, r) =>
      if !q.Done? {
        StepKeeps(L, q, m, p'.first, m');
        FirstShrinks(L, q, p'.first, r, m, m');
      }
    case Par(q, r) =>
      if p'.Par? && p'.right == r && Step(L, q, m, p'.left, m') {
        StepKeeps(L, q, m, p'.left, m');
        LeftShrinks(L, q, p'.left, r, m, m');
      } else if p'.Par? {
        StepKeeps(L, r, m, p'.right, m');
        RightShrinks(L, q, r, p'.right, m, m');
      }
  }

  lemma FirstShrinks<T>(L: Lang<T>, q: Proc<T>, q': Proc<T>, r: Proc<T>, m: Mem, m': Mem)
    requires RaceFree(L, Then(q, r)) && RaceFree(L, q') && Inside(L, q', q) && Keeps(L, q, m, m')
    ensures RaceFree(L, Then(q', r)) && Inside(L, Then(q', r), Then(q, r)) && Keeps(L, Then(q, r), m, m')
  {
  }

  lemma LeftShrinks<T>(L: Lang<T>, q: Proc<T>, q': Proc<T>, r: Proc<T>, m: Mem, m': Mem)
    requires RaceFree(L, Par(q, r)) && RaceFree(L, q') && Inside(L, q', q) && Keeps(L, q, m, m')
    ensures RaceFree(L, Par(q', r)) && Inside(L, Par(q', r), Par(q, r)) && Keeps(L, Par(q, r), m, m')
  {
  }

  lemma RightShrinks<T>(L: Lang<T>, q: Proc<T>, r: Proc<T>, r': Proc<T>, m: Mem, m': Mem)
    requires RaceFree(L, Par(q, r)) && RaceFree(L, r') && Inside(L, r', r) && Keeps(L, r, m, m')
    ensures RaceFree(L, Par(q, r')) && Inside(L, Par(q, r'), Par(q, r)) && Keeps(L, Par(q, r), m, m')
  {
  }

  /** The same step is possible wherever the cells p touches are the same. */
  lemma {:induction false} StepElsewhere<T(!new)>(L: Lang<T>, p: Proc<T>, m: Mem, p': Proc<T>, m': Mem, m2: Mem)
    requires Sound(L) && RaceFree(L, p) && |m| == L.size && Step(L, p, m, p', m') && Agree(L, p, m, m2)
    ensures |m'| == |m2| && Step(L, p, m2, p', Patch(L, p, m2, m'))
  {
    StepKeeps(L, p, m, p', m');
    match p
    case Call(t) =>
      assert Framed(L, t, m2) && Local(L, t, m, m2);
      assert L.run(t, m2).mem == Patch(L, p, m2, m');
    case Then(q, r) =>
      if q.Done? {
        assert Patch(L, p, m2, m') == m2 by { Untouched(L, p, m2, m'); }
      } else {
        StepElsewhere(L, q, m, p'.first, m', m2);
        StepKeeps(L, q, m, p'.first, m');
        SamePatch(L, p, q, m, m', m2);
      }
    case Par(q, r) =>
      if p'.Par? && p'.right == r && Step(L, q, m, p'.left, m') {
        StepElsewhere(L, q, m, p'.left, m', m2);
        StepKeeps(L, q, m, p'.left, m');
        SamePatch(L, p, q, m, m', m2);
      } else if !p'.Done? {
        StepElsewhere(L, r, m, p'.right, m', m2);
        StepKeeps(L, r, m, p'.right, m');
        SamePatch(L, p, r, m, m', m2);
      } else {
        Untouched(L, p, m2, m');
      }
  }

  lemma Untouched<T>(L: Lang<T>, p: Proc<T>, m2: Mem, m: Mem)
    requires Agree(L, p, m, m2)
    ensures Patch(L, p, m2, m) == m2
  {
    forall x | 0 <= x < |m| && Writes(L, p, x) ensures m[x] == m2[x] {
      WritesTouch(L, p, x);
    }
  }

  /** Cells of p outside its part q were the same before the step, so patching them changes nothing. */
  lemma SamePatch<T>(L: Lang<T>, p: Proc<T>, q: Proc<T>, m: Mem, m': Mem, m2: Mem)
    requires Inside(L, q, p) && Agree(L, p, m, m2) && Keeps(L, q, m, m')
    ensures Patch(L, p, m2, m') == Patch(L, q, m2, m')
  {
    forall x | 0 <= x < |m| && Writes(L, p, x) && !Writes(L, q, x) ensures m'[x] == m2[x] {
      WritesTouch(L, p, x);
    }
  }

  /** A step of a parallel sibling and the whole serial run of p do not disturb each other. */
  lemma Commute<T(!new)>(L: Lang<T>, p: Proc<T>, q: Proc<T>, m: Mem, q': Proc<T>, m': Mem)
    requires Sound(L) && RaceFree(L, p) && RaceFree(L, q) && Apart(L, p, q) && |m| == L.size && Step(L, q, m, q', m')
    ensures |m'| == L.size
    ensures Step(L, q, Serial(L, p, m).mem, q', Serial(L, p, m').mem)
    ensures Serial(L, p, m').steps == Serial(L, p, m).steps
  {
    StepKeeps(L, q, m, q', m');
    var n, n' := Serial(L, p, m).mem, Serial(L, p, m').mem;
    SerialKeeps(L, p, m);
    SerialKeeps(L, p, m');
    assert Agree(L, p, m, m');
    SerialLocal(L, p, p, m, m');
    assert Agree(L, q, m, n);
    StepElsewhere(L, q, m, q', m', n);
    forall x | 0 <= x < |m| ensures n'[x] == Patch(L, q, n, m')[x] {
      if Writes(L, q, x) {
        WritesTouch(L, q, x);
      } else if Touches(L, p, x) {
      } else {
        if Writes(L, p, x) { WritesTouch(L, p, x); }
      }
    }
    assert n' == Patch(L, q, n, m');
  }

  /** Whatever step is taken, the serial result from there on is the same, one step nearer. */
  lemma {:induction false} StepIsSerial<T(!new)>(L: Lang<T>, p: Proc<T>, m: Mem, p': Proc<T>, m': Mem)
    requires Sound(L) && RaceFree(L, p) && |m| == L.size && Step(L, p, m, p', m')
    ensures RaceFree(L, p') && |m'| == L.size
    ensures Serial(L, p, m) == Final(Serial(L, p', m').mem, Serial(L, p', m').steps + 1)
  {
    StepKeeps(L, p, m, p', m');
    match p
    case Call(t) =>
    case Then(q, r) =>
      if !q.Done? {
        StepIsSerial(L, q, m, p'.first, m');
      }
    case Par(q, r) =>
      if p'.Par? && p'.right == r && Step(L, q, m, p'.left, m') {
        StepIsSerial(L, q, m, p'.left, m');
      } else if !p'.Done? {
        Commute(L, q, r, m, p'.right, m');
        StepIsSerial(L, r, Serial(L, q, m).mem, p'.right, Serial(L, q, m').mem);
      }
  }

  // ---------------------------------------------------------------- what can be next

  /** Some processor can run t next. */
  predicate CanBeNext<T(==)>(p: Proc<T>, t: T) {
    match p
    case Done => false
    case Call(u) => u == t
    case Then(q, _) => CanBeNext(q, t)
    case Par(q, r) => CanBeNext(q, t) || CanBeNext(r, t)
  }

  lemma {:induction false} NextRuns<T(!new)>(L: Lang<T>, p: Proc<T>, m: Mem, t: T) returns (p': Proc<T>)
    requires CanBeNext(p, t)
    ensures Step(L, p, m, p', L.run(t, m).mem)
  {
    match p
    case Call(_) => p' := L.run(t, m).rest;
    case Then(q, r) =>
      var q' := NextRuns(L, q, m, t);
      p' := Then(q', r);
    case Par(q, r) =>
      if CanBeNext(q, t) {
        var q' := NextRuns(L, q, m, t);
        p' := Par(q', r);
      } else {
        var r' := NextRuns(L, r, m, t);
        p' := Par(q, r');
      }
  }

  /** Of four tasks side by side any can be next. */
  lemma AnyOfFour<T>(a: T, b: T, c: T, d: T)
    ensures var p := Par(Par(Par(Call(a), Call(b)), Call(c)), Call(d)); CanBeNext(p, a) && CanBeNext(p, b) && CanBeNext(p, c) && CanBeNext(p, d)
  {
    assert CanBeNext(Par(Call(a), Call(b)), a) && CanBeNext(Par(Call(a), Call(b)), b);
    var p := Par(Par(Call(a), Call(b)), Call(c));
    assert CanBeNext(p, a) && CanBeNext(p, b) && CanBeNext(p, c);
  }

  /** Every task of the program is one of those. */
  predicate All<T>(p: Proc<T>, these: T -> bool) {
    match p
    case Done => true
    case Call(t) => these(t)
    case Then(q, r) => All(q, these) && All(r, these)
    case Par(q, r) => All(q, these) && All(r, these)
  }

  ghost predicate Leaves<T(!new)>(L: Lang<T>, these: T -> bool) {
    forall t: T, m: Mem :: these(t) ==> All(L.run(t, m).rest, these)
  }

  lemma {:induction false} StepKeepsAll<T(!new)>(L: Lang<T>, these: T -> bool, p: Proc<T>, m: Mem, p': Proc<T>, m': Mem)
    requires Leaves(L, these) && All(p, these) && Step(L, p, m, p', m')
    ensures All(p', these)
  {
    match p
    case Call(t) =>
    case Then(q, r) =>
      if !q.Done? {
        StepKeepsAll(L, these, q, m, p'.first, m');
      }
    case Par(q, r) =>
      if p'.Par? && p'.right == r && Step(L, q, m, p'.left, m') {
        StepKeepsAll(L, these, q, m, p'.left, m');
      } else if p'.Par? {
        StepKeepsAll(L, these, r, m, p'.right, m');
      }
  }

  // ---------------------------------------------------------------- schedules

  datatype Config<T> = Config(prog: Proc<T>, mem: Mem)

  /** Any way of running the program, not necessarily to the end. */
  ghost predicate Schedule<T(!new)>(L: Lang<T>, run: seq<Config<T>>) {
    && |run| > 0
    && forall i :: 0 < i < |run| ==> Step(L, run[i - 1].prog, run[i - 1].mem, run[i].prog, run[i].mem)
  }

  /** Every program is the start of a schedule, and every step of some processor continues one. */
  lemma SchedulesGoOn<T(!new)>(L: Lang<T>, run: seq<Config<T>>, c: Config<T>)
    ensures Schedule(L, [c])
    ensures Schedule(L, run) && Step(L, run[|run| - 1].prog, run[|run| - 1].mem, c.prog, c.mem) ==> Schedule(L, run + [c])
  {
  }

  /** What tasks leave only such tasks, a schedule keeps to. */
  lemma {:induction false} ScheduleKeepsAll<T(!new)>(L: Lang<T>, these: T -> bool, run: seq<Config<T>>)
    requires Leaves(L, these) && Schedule(L, run) && All(run[0].prog, these)
    ensures All(run[|run| - 1].prog, these)
    decreases |run|
  {
    if |run| > 1 {
      var init := run[..|run| - 1];
      ScheduleKeepsAll(L, these, init);
      var a, b := init[|init| - 1], run[|run| - 1];
      assert Step(L, a.prog, a.mem, b.prog, b.mem);
      StepKeepsAll(L, these, a.prog, a.mem, b.prog, b.mem);
    }
  }

  lemma {:induction false} EveryScheduleIsSerial<T(!new)>(L: Lang<T>, run: seq<Config<T>>)
    requires Sound(L) && Schedule(L, run) && RaceFree(L, run[0].prog) && |run[0].mem| == L.size
    ensures var last := run[|run| - 1];
      && RaceFree(L, last.prog) && |last.mem| == L.size
      && Serial(L, run[0].prog, run[0].mem)
         == Final(Serial(L, last.prog, last.mem).mem, Serial(L, last.prog, last.mem).steps + |run| - 1)
    decreases |run|
  {
    if |run| > 1 {
      var init := run[..|run| - 1];
      EveryScheduleIsSerial(L, init);
      var a, b := init[|init| - 1], run[|run| - 1];
      assert Step(L, a.prog, a.mem, b.prog, b.mem);
      StepIsSerial(L, a.prog, a.mem, b.prog, b.mem);
    }
  }

  /** Determinacy: every complete schedule ends with the serial memory, after the serial number of steps. */
  lemma Determinate<T(!new)>(L: Lang<T>, run: seq<Config<T>>)
    requires Sound(L) && Schedule(L, run) && RaceFree(L, run[0].prog) && |run[0].mem| == L.size
    requires run[|run| - 1].prog.Done?
    ensures Serial(L, run[0].prog, run[0].mem) == Final(run[|run| - 1].mem, |run| - 1)
  {
    EveryScheduleIsSerial(L, run);
  }

  /** A schedule that has not ended can go on. */
  lemma {:induction false} Progress<T(!new)>(L: Lang<T>, p: Proc<T>, m: Mem) returns (p': Proc<T>, m': Mem)
    requires !p.Done?
    ensures Step(L, p, m, p', m')
  {
    match p
    case Call(t) => p', m' := L.run(t, m).rest, L.run(t, m).mem;
    case Then(q, r) =>
      if q.Done? {
        p', m' := r, m;
      } else {
        var q', n := Progress(L, q, m);
        p', m' := Then(q', r), n;
      }
    case Par(q, r) =>
      if !q.Done? {
        var q', n := Progress(L, q, m);
        p', m' := Par(q', r), n;
      } else if !r.Done? {
        var r', n := Progress(L, r, m);
        p', m' := Par(q, r'), n;
      } else {
        p', m' := Done, m;
      }
  }

  /** No schedule runs for ever, and none is stuck before the end: it is over exactly after the serial
      number of steps. */
  lemma NeverLonger<T(!new)>(L: Lang<T>, run: seq<Config<T>>)
    requires Sound(L) && Schedule(L, run) && RaceFree(L, run[0].prog) && |run[0].mem| == L.size
    ensures |run| - 1 <= Serial(L, run[0].prog, run[0].mem).steps
    ensures run[|run| - 1].prog.Done? <==> |run| - 1 == Serial(L, run[0].prog, run[0].mem).steps
  {
    EveryScheduleIsSerial(L, run);
    var last := run[|run| - 1];
    if !last.prog.Done? {
      var p, m := Progress(L, last.prog, last.mem);
      StepIsSerial(L, last.prog, last.mem, p, m);
    }
  }
}
