/**
 Pending exceptions (except-gcc.cpp).  A child that cannot return to its parent saves its C++ exception state in a
 record; when strands join, the records are merged pairwise, in whatever order the joins happen, and the strand
 that goes on after the sync installs the result.  A null pointer is a record that says nothing.
 */
module Exceptions {

  /** An exception object. */
  type Exc = nat

  datatype Option<T> = None | Some(value: T)

  /** The exception that was active at the suspension; whether the most recently caught one is to be thrown again;
      and the C++ runtime's state: the caught exceptions, latest first, and the count of uncaught ones. */
  datatype Record = Record(active: Option<Exc>, rethrow: bool, caught: seq<Exc>, uncaught: int)

  /** The count is an unsigned int. */
  const UINT: int := 0x1_0000_0000

  function Wrap(x: int): (r: int)
    ensures 0 <= r < UINT
  {
    x % UINT
  }

  const Nothing: Record := Record(None, false, [], 0)

  function One(b: bool): int {
    if b then 1 else 0
  }

  /** check() */
  predicate Checks(r: Record) {
    r.active.Some? ==> 0 < r.uncaught < UINT / 2
  }

  // ---------------------------------------------------------------- merging two records

  /** One of the two assertions would fail. */
  predicate Aborts(left: Record, right: Record) {
    if left.caught != [] then right.caught != [] else left.rethrow
  }

  /** What the left record becomes. */
  function Joined(left: Record, right: Record): Record {
    Record(if left.active.Some? then left.active else right.active,
           if left.caught != [] then left.rethrow else right.rethrow,
           if left.caught != [] then left.caught else right.caught,
           Wrap(left.uncaught + right.uncaught - One(left.active.Some? && right.active.Some?)))
  }

  /** The exceptions that are destroyed. */
  function Dropped(left: Record, right: Record): seq<Exc> {
    if left.active.Some? && right.active.Some? then [right.active.value] else []
  }

  function OrNull(r: Record): Option<Record> {
    if r == Nothing then None else Some(r)
  }

  datatype Outcome = Aborted | Merged(record: Option<Record>, dropped: seq<Exc>)

  function MergeTwo(left: Option<Record>, right: Option<Record>): Outcome {
    if left == None then Merged(right, [])
    else if right == None then Merged(left, [])
    else if Aborts(left.value, right.value) then Aborted
    else Merged(OrNull(Joined(left.value, right.value)), Dropped(left.value, right.value))
  }

  // ---------------------------------------------------------------- the records in memory

  /** The C++ runtime's exception state of one strand. */
  class Globals {
    var caught: seq<Exc>
    var uncaught: nat
  }

  /** What resuming a frame sets in it. */
  class Frame {
    var excepting: bool
    var exceptData: Option<Exc>
  }

  class PendingExceptionInfo {
    var active: Option<Exc>
    var rethrow: bool
    var caught: seq<Exc>
    var uncaught: nat

    ghost function Get(): Record
      reads this
    {
      Record(active, rethrow, caught, uncaught)
    }

    ghost predicate Valid()
      reads this
    {
      uncaught < UINT
    }

    /** make: reads and clears the runtime's state. */
    constructor (state: Globals, exc: Option<Exc>, rethrow: bool)
      requires state.uncaught < UINT
      modifies state
      ensures Valid() && Get() == Record(exc, rethrow, old(state.caught), old(state.uncaught))
      ensures state.caught == [] && state.uncaught == 0
    {
      this.active, this.rethrow, this.caught, this.uncaught := exc, rethrow, state.caught, state.uncaught;
      new;
      state.caught, state.uncaught := [], 0;
    }

    predicate Empty()
      reads this
    {
      active == None && !rethrow && caught == [] && uncaught == 0
    }

    /** destruct: deletes the active exception and the caught ones. */
    method Destruct() returns (deleted: seq<Exc>)
      modifies this`active, this`caught
      ensures active == None && caught == []
      ensures deleted == (if old(active).Some? then [old(active).value] else []) + old(caught)
    {
      deleted := [];
      if active.Some? {
        deleted := [active.value];
        active := None;
      }
      ghost var chain := deleted + caught;
      while caught != []
        invariant deleted + caught == chain && active == None
        decreases |caught|
      {
        deleted := deleted + [caught[0]];
        caught := caught[1..];
      }
    }
  }

  ghost function View(info: PendingExceptionInfo?): Option<Record>
    reads info
  {
    if info == null then None else Some(info.Get())
  }

  /** The right record is folded into the left one and freed; the left one is freed too if nothing is left. */
  method MergePendingExceptions(left: PendingExceptionInfo?, right: PendingExceptionInfo?)
    returns (aborted: bool, merged: PendingExceptionInfo?, deleted: seq<Exc>)
    requires left != null ==> left.Valid() && left != right
    requires right != null ==> right.Valid()
    modifies left, right
    ensures aborted <==> MergeTwo(old(View(left)), old(View(right))) == Aborted
    ensures !aborted ==> Merged(View(merged), deleted) == MergeTwo(old(View(left)), old(View(right)))
    ensures merged != null ==> merged.Valid() && merged == if left == null then right else left
    // a merged record that says nothing is freed
    ensures left != null && right != null && merged != null ==> merged.active.Some? || merged.rethrow || merged.caught != [] || merged.uncaught != 0
  {
    hide Wrap;
    if left == null {
      return false, right, [];
    }
    if right == null {
      return false, left, [];
    }
    if left.caught != [] {
      if right.caught != [] {
        return true, null, [];
      }
    } else {
      if left.rethrow {
        return true, null, [];
      }
      left.rethrow, left.caught := right.rethrow, right.caught;
      right.caught := [];
    }
    if left.active == None {
      left.active := right.active;
      right.active := None;
      left.uncaught := Wrap(left.uncaught + right.uncaught);
    } else {
      WrapSum(left.uncaught, right.uncaught - One(right.active.Some?), 0);
      WrapSmall(left.uncaught);
      left.uncaught := Wrap(left.uncaught + Wrap(right.uncaught - One(right.active.Some?)));
    }
    deleted := right.Destruct();
    if left.Empty() {
      var none := left.Destruct();
      return false, null, deleted;
    }
    return false, left, deleted;
  }

  /** The resumed frame's exception state is what the record says; the record itself has served. */
  method SetupForExecution(info: PendingExceptionInfo?, state: Globals, frame: Frame) returns (bug: bool)
    requires info != null ==> info.Valid()
    modifies info, state, frame
    ensures bug <==> info != null && (old(state.uncaught) != 0 || old(state.caught) != [])
    ensures info == null ==> unchanged(state) && unchanged(frame)
    ensures bug ==> unchanged(info) && unchanged(state) && unchanged(frame)
    ensures info != null && !bug ==>
      && info.Empty()
      && state.caught == old(info.caught) && state.uncaught == old(info.uncaught)
      && frame.excepting == (old(frame.excepting) || old(info.rethrow) || old(info.active).Some?)
      && frame.exceptData == if old(info.active).Some? then old(info.active) else old(frame.exceptData)
  {
    if info == null {
      return false;
    }
    if state.uncaught != 0 || state.caught != [] {
      return true;
    }
    state.caught, state.uncaught := info.caught, info.uncaught;
    info.caught, info.uncaught := [], 0;
    if info.rethrow {
      info.rethrow := false;
      frame.excepting := true;
    }
    if info.active.Some? {
      frame.excepting := true;
      frame.exceptData := info.active;
      info.active := None;
    }
    return false;
  }

  /** The frame that resumes with this record resumes with an exception. */
  predicate Raises(r: Record) {
    r.rethrow || r.active.Some?
  }

  // ---------------------------------------------------------------- any bracketing

  /** Merges of records in their logical order, bracketed in some way. */
  datatype Joins = Leaf(info: Option<Record>) | Join(left: Joins, right: Joins)

  function Leaves(t: Joins): (infos: seq<Option<Record>>)
    ensures infos != []
  {
    match t
    case Leaf(info) => [info]
    case Join(l, r) => Leaves(l) + Leaves(r)
  }

  function Run(t: Joins): Outcome {
    match t
    case Leaf(info) => Merged(info, [])
    case Join(l, r) =>
      var a, b := Run(l), Run(r);
      if a.Aborted? || b.Aborted? then Aborted
      else
        var c := MergeTwo(a.record, b.record);
        if c.Aborted? then Aborted else Merged(c.record, a.dropped + b.dropped + c.dropped)
  }

  function Read(info: Option<Record>): Record {
    if info.Some? then info.value else Nothing
  }

  /** An unsigned count, and "rethrow" only with something to throw again. */
  predicate WellFormed(r: Record) {
    0 <= r.uncaught < UINT && (r.rethrow ==> r.caught != [])
  }

  predicate AllWellFormed(infos: seq<Option<Record>>) {
    forall i :: 0 <= i < |infos| ==> WellFormed(Read(infos[i]))
  }

  /** The first active exception from the left. */
  function Leftmost(infos: seq<Option<Record>>): Option<Exc> {
    if infos == [] then None
    else if Read(infos[0]).active.Some? then Read(infos[0]).active
    else Leftmost(infos[1..])
  }

  /** The first record from the left that has caught exceptions; Nothing if none has. */
  function Chain(infos: seq<Option<Record>>): Record {
    if infos == [] then Nothing
    else if Read(infos[0]).caught != [] then Read(infos[0])
    else Chain(infos[1..])
  }

  function Chains(infos: seq<Option<Record>>): nat {
    if infos == [] then 0 else One(Read(infos[0]).caught != []) + Chains(infos[1..])
  }

  function Sum(infos: seq<Option<Record>>): int {
    if infos == [] then 0 else Read(infos[0]).uncaught + Sum(infos[1..])
  }

  /** The active exceptions, from left to right. */
  function Actives(infos: seq<Option<Record>>): seq<Exc> {
    if infos == [] then [] else ActiveOf(Read(infos[0])) + Actives(infos[1..])
  }

  function ActiveOf(r: Record): seq<Exc> {
    if r.active.Some? then [r.active.value] else []
  }

  /** The caught exceptions, from left to right. */
  function Caught(infos: seq<Option<Record>>): seq<Exc> {
    if infos == [] then [] else Read(infos[0]).caught + Caught(infos[1..])
  }

  /** How many active exceptions cannot survive: all but one. */
  function Losers(actives: seq<Exc>): int {
    if actives == [] then 0 else |actives| - 1
  }

  /** What a sequence of records amounts to, without merging anything. */
  function Whole(infos: seq<Option<Record>>): Record {
    Record(Leftmost(infos), Chain(infos).rethrow, Chain(infos).caught, Wrap(Sum(infos) - Losers(Actives(infos))))
  }

  lemma Split(a: seq<Option<Record>>, b: seq<Option<Record>>)
    ensures Leftmost(a + b) == if Leftmost(a).Some? then Leftmost(a) else Leftmost(b)
    ensures Chain(a + b) == if Chain(a).caught != [] then Chain(a) else Chain(b)
    ensures Chains(a + b) == Chains(a) + Chains(b) && Sum(a + b) == Sum(a) + Sum(b)
    ensures Actives(a + b) == Actives(a) + Actives(b) && Caught(a + b) == Caught(a) + Caught(b)
  {
    hide Leftmost, Chain, Chains, Sum, Actives, Caught;
    SplitFirsts(a, b);
    SplitLists(a, b);
    SplitCounts(a, b);
  }

  lemma {:induction false} SplitFirsts(a: seq<Option<Record>>, b: seq<Option<Record>>)
    ensures Leftmost(a + b) == if Leftmost(a).Some? then Leftmost(a) else Leftmost(b)
    ensures Chain(a + b) == if Chain(a).caught != [] then Chain(a) else Chain(b)
  {
    if a == [] {
      assert a + b == b;
    } else {
      assert (a + b)[0] == a[0] && (a + b)[1..] == a[1..] + b;
      SplitFirsts(a[1..], b);
    }
  }

  lemma {:induction false} SplitLists(a: seq<Option<Record>>, b: seq<Option<Record>>)
    ensures Actives(a + b) == Actives(a) + Actives(b) && Caught(a + b) == Caught(a) + Caught(b)
  {
    if a == [] {
      assert a + b == b;
    } else {
      var r, rest := Read(a[0]), a[1..];
      assert (a + b)[0] == a[0] && (a + b)[1..] == rest + b;
      assert Actives(a + b) == ActiveOf(r) + Actives(rest + b) && Caught(a + b) == r.caught + Caught(rest + b);
      assert Actives(a) == ActiveOf(r) + Actives(rest) && Caught(a) == r.caught + Caught(rest);
      SplitLists(rest, b);
      hide Actives, Caught, ActiveOf, Read;
      Associates(ActiveOf(r), Actives(rest), Actives(b));
      Associates(r.caught, Caught(rest), Caught(b));
    }
  }

  lemma Associates(x: seq<Exc>, y: seq<Exc>, z: seq<Exc>)
    ensures x + (y + z) == (x + y) + z
  {
  }

  lemma {:induction false} SplitCounts(a: seq<Option<Record>>, b: seq<Option<Record>>)
    ensures Chains(a + b) == Chains(a) + Chains(b) && Sum(a + b) == Sum(a) + Sum(b)
  {
    if a == [] {
      assert a + b == b;
    } else {
      assert (a + b)[0] == a[0] && (a + b)[1..] == a[1..] + b;
      SplitCounts(a[1..], b);
    }
  }

  /** The pieces of a sequence's meaning agree with each other. */
  lemma {:induction false} Agree(infos: seq<Option<Record>>)
    requires AllWellFormed(infos)
    ensures Leftmost(infos) == if Actives(infos) == [] then None else Some(Actives(infos)[0])
    ensures Chain(infos).caught != [] <==> Chains(infos) > 0
    ensures Chain(infos).caught == [] ==> Chain(infos) == Nothing
    ensures Chains(infos) <= 1 ==> Chain(infos).caught == Caught(infos)
    ensures WellFormed(Whole(infos))
  {
    if infos != [] {
      Agree(infos[1..]);
    }
  }

  /** Two halves meet: the assertions hold exactly if not both have a chain, and the join is the whole. */
  lemma HalvesMeet(a: seq<Option<Record>>, b: seq<Option<Record>>)
    requires AllWellFormed(a) && AllWellFormed(b) && Chains(a) <= 1 && Chains(b) <= 1
    ensures Aborts(Whole(a), Whole(b)) <==> Chains(a + b) > 1
    ensures Joined(Whole(a), Whole(b)) == Whole(a + b)
  {
    HalvesCount(a, b);
    Split(a, b);
    Agree(a);
    Agree(b);
    hide Wrap, Chain, Leftmost, Actives, Sum, Chains, Caught, Losers, One, AllWellFormed;
  }

  lemma HalvesCount(a: seq<Option<Record>>, b: seq<Option<Record>>)
    requires AllWellFormed(a) && AllWellFormed(b)
    ensures Joined(Whole(a), Whole(b)).uncaught == Whole(a + b).uncaught
  {
    hide Wrap, Chain, Leftmost, Actives, Sum, Chains, Caught, Losers, AllWellFormed;
    Split(a, b);
    Agree(a);
    Agree(b);
    OneMoreLoser(Actives(a), Actives(b));
    var both := One(Leftmost(a).Some? && Leftmost(b).Some?);
    WrapSum(Sum(a) - Losers(Actives(a)), Sum(b) - Losers(Actives(b)), both);
    assert both == One(Actives(a) != [] && Actives(b) != []);
  }

  lemma OneMoreLoser(a: seq<Exc>, b: seq<Exc>)
    ensures Losers(a + b) == Losers(a) + Losers(b) + One(a != [] && b != [])
  {
  }

  lemma WrapSmall(x: int)
    requires 0 <= x < UINT
    ensures Wrap(x) == x
  {
  }

  lemma WrapSum(x: int, y: int, z: int)
    ensures Wrap(Wrap(x) + Wrap(y) - z) == Wrap(x + y - z)
  {
  }

  /** Joining with Nothing changes nothing, so it does not matter whether it is a record or a null pointer. */
  lemma NothingIsNeutral(r: Record)
    requires WellFormed(r)
    ensures Joined(Nothing, r) == r == Joined(r, Nothing) && !Aborts(Nothing, r) && !Aborts(r, Nothing)
    ensures Dropped(Nothing, r) == [] == Dropped(r, Nothing)
  {
  }

  /** MergeTwo on what the records say. */
  lemma MergeReads(left: Option<Record>, right: Option<Record>)
    requires WellFormed(Read(left)) && WellFormed(Read(right))
    ensures var m := MergeTwo(left, right);
      && (m.Aborted? <==> Aborts(Read(left), Read(right)))
      && (!m.Aborted? ==> Read(m.record) == Joined(Read(left), Read(right)) && m.dropped == Dropped(Read(left), Read(right)))
  {
    NothingIsNeutral(Read(left));
    NothingIsNeutral(Read(right));
  }

  /** However the merges are bracketed: an assertion fails exactly if two of the records have caught exceptions, and
      otherwise the result is what the sequence of records amounts to. */
  lemma {:induction false} AnyBracketing(t: Joins)
    requires AllWellFormed(Leaves(t))
    ensures Run(t).Aborted? <==> Chains(Leaves(t)) > 1
    ensures !Run(t).Aborted? ==> Read(Run(t).record) == Whole(Leaves(t))
  {
    match t
    case Leaf(info) =>
      OneLeaf(t);
    case Join(l, r) =>
      Sides(l, r);
      AnyBracketing(l);
      AnyBracketing(r);
      Split(Leaves(l), Leaves(r));
      if Chains(Leaves(l)) <= 1 && Chains(Leaves(r)) <= 1 {
        hide Whole, Aborts, Joined, Leftmost, Chain, Chains, Sum, Actives, Caught, MergeTwo;
        HalvesMeet(Leaves(l), Leaves(r));
        Agree(Leaves(l));
        Agree(Leaves(r));
        MergeReads(Run(l).record, Run(r).record);
      }
  }

  lemma Sides(l: Joins, r: Joins)
    requires AllWellFormed(Leaves(Join(l, r)))
    ensures AllWellFormed(Leaves(l)) && AllWellFormed(Leaves(r))
  {
    var ls, all := Leaves(l), Leaves(Join(l, r));
    assert forall i :: 0 <= i < |ls| ==> all[i] == ls[i];
    assert forall i :: 0 <= i < |Leaves(r)| ==> all[|ls| + i] == Leaves(r)[i];
  }

  lemma OneLeaf(t: Joins)
    requires t.Leaf? && AllWellFormed(Leaves(t))
    ensures Whole(Leaves(t)) == Read(t.info) && Chains(Leaves(t)) <= 1 && Actives(Leaves(t)) == ActiveOf(Read(t.info))
  {
    var infos := Leaves(t);
    var r := Read(infos[0]);
    assert WellFormed(r) && infos[1..] == [];
    assert Actives(infos) == ActiveOf(r) + Actives([]) && Sum(infos) == r.uncaught + Sum([]);
    assert Losers(ActiveOf(r)) == 0;
    assert Chain(infos[1..]) == Nothing && Leftmost(infos[1..]) == None;
    WrapSmall(r.uncaught);
  }

  /** Two bracketings of the same records differ in nothing a reader of the record could tell. */
  lemma BracketingsAgree(t: Joins, u: Joins)
    requires Leaves(t) == Leaves(u) && AllWellFormed(Leaves(t))
    ensures Run(t).Aborted? <==> Run(u).Aborted?
    ensures !Run(t).Aborted? ==> Read(Run(t).record) == Read(Run(u).record)
    ensures !Run(t).Aborted? ==> multiset(Run(t).dropped) == multiset(Run(u).dropped)
  {
    AnyBracketing(t);
    AnyBracketing(u);
    if !Run(t).Aborted? {
      AllButTheLeftmost(t);
      AllButTheLeftmost(u);
    }
  }

  /** Exactly the active exceptions other than the leftmost are destroyed, each once. */
  lemma {:induction false} AllButTheLeftmost(t: Joins)
    requires AllWellFormed(Leaves(t)) && !Run(t).Aborted?
    ensures Actives(Leaves(t)) == [] ==> Run(t).dropped == []
    ensures Actives(Leaves(t)) != [] ==> multiset(Run(t).dropped) == multiset(Actives(Leaves(t))[1..])
  {
    match t
    case Leaf(info) =>
      OneLeaf(t);
    case Join(l, r) =>
      Sides(l, r);
      AllButTheLeftmost(l);
      AllButTheLeftmost(r);
      JoinDrops(l, r);
      Split(Leaves(l), Leaves(r));
      hide *;
      LosersJoin(Run(l).dropped, Run(r).dropped, Actives(Leaves(l)), Actives(Leaves(r)));
  }

  /** What a join destroys, seen from the leaves. */
  lemma JoinDrops(l: Joins, r: Joins)
    requires AllWellFormed(Leaves(Join(l, r))) && !Run(Join(l, r)).Aborted?
    ensures !Run(l).Aborted? && !Run(r).Aborted?
    ensures Run(Join(l, r)).dropped == Run(l).dropped + Run(r).dropped + LostInJoin(Actives(Leaves(l)), Actives(Leaves(r)))
  {
    Sides(l, r);
    AnyBracketing(l);
    AnyBracketing(r);
    Agree(Leaves(l));
    Agree(Leaves(r));
    MergeReads(Run(l).record, Run(r).record);
  }

  /** The right half's leftmost active exception, if the left half has one too. */
  function LostInJoin(a: seq<Exc>, b: seq<Exc>): seq<Exc> {
    if a != [] && b != [] then [b[0]] else []
  }

  lemma LosersJoin(da: seq<Exc>, db: seq<Exc>, a: seq<Exc>, b: seq<Exc>)
    requires if a == [] then da == [] else multiset(da) == multiset(a[1..])
    requires if b == [] then db == [] else multiset(db) == multiset(b[1..])
    ensures var d := da + db + LostInJoin(a, b);
      if a + b == [] then d == [] else multiset(d) == multiset((a + b)[1..])
  {
    Tails(a, b);
  }

  lemma Tails(a: seq<Exc>, b: seq<Exc>)
    ensures a != [] ==> (a + b)[1..] == a[1..] + b
    ensures b != [] ==> [b[0]] + b[1..] == b
    ensures a == [] ==> a + b == b
  {
  }

  /** No exception object is lost and none is freed twice: what went in is what came out and what was destroyed. */
  lemma NothingLost(t: Joins)
    requires AllWellFormed(Leaves(t)) && !Run(t).Aborted?
    ensures var out := Read(Run(t).record);
      multiset(Actives(Leaves(t))) + multiset(Caught(Leaves(t)))
        == multiset(ActiveOf(out)) + multiset(out.caught) + multiset(Run(t).dropped)
  {
    AnyBracketing(t);
    AllButTheLeftmost(t);
    Agree(Leaves(t));
    hide Wrap, Chain, Leftmost, Actives, Sum, Chains, Run, Leaves, Caught, AllWellFormed;
    FirstAndRest(Actives(Leaves(t)));
  }

  lemma FirstAndRest(actives: seq<Exc>)
    ensures actives != [] ==> multiset(actives) == multiset([actives[0]]) + multiset(actives[1..])
  {
    if actives != [] {
      assert actives == [actives[0]] + actives[1..];
    }
  }

  // ---------------------------------------------------------------- the count of uncaught exceptions

  predicate AllCheck(infos: seq<Option<Record>>) {
    forall i :: 0 <= i < |infos| ==> Checks(Read(infos[i]))
  }

  lemma {:induction false} EnoughUncaught(infos: seq<Option<Record>>)
    requires AllWellFormed(infos) && AllCheck(infos)
    ensures Sum(infos) >= |Actives(infos)|
  {
    if infos != [] {
      EnoughUncaught(infos[1..]);
    }
  }

  /** If every record's check() holds and the counts fit, the merged count is exact, and check() holds again; where
      an exception is active it holds only if the counts fit. */
  lemma CountIsExact(t: Joins)
    requires AllWellFormed(Leaves(t)) && AllCheck(Leaves(t)) && !Run(t).Aborted?
    requires Sum(Leaves(t)) < UINT
    ensures var out, exact := Read(Run(t).record), Sum(Leaves(t)) - |Run(t).dropped|;
      && out.uncaught == exact
      && (out.active.Some? ==> exact >= 1)
      && (Checks(out) <==> (out.active.Some? ==> exact < UINT / 2))
  {
    hide Wrap, Leftmost, Actives, Sum, Run, Leaves, AllWellFormed, AllCheck;
    AnyBracketing(t);
    DroppedCount(t);
    WholeCount(Leaves(t));
  }

  lemma WholeCount(infos: seq<Option<Record>>)
    requires AllWellFormed(infos) && AllCheck(infos) && Sum(infos) < UINT
    ensures Whole(infos).uncaught == Sum(infos) - Losers(Actives(infos))
    ensures Whole(infos).active.Some? ==> Whole(infos).uncaught >= 1
  {
    hide Wrap, Leftmost, Actives, Sum, Chain, Chains, AllWellFormed, AllCheck;
    Agree(infos);
    EnoughUncaught(infos);
    WrapSmall(Sum(infos) - Losers(Actives(infos)));
  }

  lemma DroppedCount(t: Joins)
    requires AllWellFormed(Leaves(t)) && !Run(t).Aborted?
    ensures |Run(t).dropped| == Losers(Actives(Leaves(t)))
  {
    AllButTheLeftmost(t);
    hide *;
    SameLength(Run(t).dropped, Actives(Leaves(t)));
  }

  lemma SameLength(dropped: seq<Exc>, actives: seq<Exc>)
    requires actives == [] ==> dropped == []
    requires actives != [] ==> multiset(dropped) == multiset(actives[1..])
    ensures |dropped| == Losers(actives)
  {
    if actives != [] {
      assert |multiset(dropped)| == |multiset(actives[1..])|;
    }
  }

  // ---------------------------------------------------------------- what the comments promise

  /** "Active" and "rethrow" exclude each other, it is said.  A merge brings them together exactly if one record has
      the active exception and the other asks to throw again. */
  predicate Exclusive(r: Record) {
    !(r.active.Some? && r.rethrow)
  }

  lemma WhenExclusive(left: Record, right: Record)
    requires WellFormed(left) && WellFormed(right) && Exclusive(left) && Exclusive(right) && !Aborts(left, right)
    ensures Exclusive(Joined(left, right)) <==> !(left.active.Some? && right.rethrow) && !(left.rethrow && right.active.Some?)
  {
  }

  /** Over any bracketing: the merged record is exclusive exactly if no record has an active exception or none asks to
      throw again. */
  lemma WhenAllExclusive(t: Joins)
    requires AllWellFormed(Leaves(t)) && !Run(t).Aborted?
    ensures Exclusive(Read(Run(t).record)) <==> Actives(Leaves(t)) == [] || !Rethrows(Leaves(t))
  {
    AnyBracketing(t);
    Agree(Leaves(t));
    ChainRethrows(Leaves(t));
  }

  predicate Rethrows(infos: seq<Option<Record>>) {
    exists i :: 0 <= i < |infos| && Read(infos[i]).rethrow
  }

  lemma {:induction false} ChainRethrows(infos: seq<Option<Record>>)
    requires AllWellFormed(infos) && Chains(infos) <= 1
    ensures Chain(infos).rethrow <==> Rethrows(infos)
  {
    if infos != [] {
      var rest := infos[1..];
      ChainRethrows(rest);
      Agree(rest);
      if i :| 0 <= i < |rest| && Read(rest[i]).rethrow {
        assert Read(infos[i + 1]).rethrow;
      }
      if i :| 0 <= i < |infos| && Read(infos[i]).rethrow {
        assert i > 0 ==> infos[i] == rest[i - 1];
      }
    }
  }

  /** Both ways it happens; the left record of the second is what a merge of a null pointer with the right record of
      the first leaves. */
  lemma NotAlwaysExclusive()
    ensures var active, rethrows := Record(Some(1), false, [], 1), Record(None, true, [2], 0);
      && WellFormed(active) && WellFormed(rethrows) && Exclusive(active) && Exclusive(rethrows)
      && Checks(active) && Checks(rethrows) && !Aborts(active, rethrows) && !Aborts(rethrows, active)
      && !Exclusive(Joined(active, rethrows)) && !Exclusive(Joined(rethrows, active))
      && Run(Join(Leaf(None), Leaf(Some(rethrows)))) == Merged(Some(rethrows), [])
  {
  }

  /** A record that asks to throw again although nothing was caught would make the bracketing matter. */
  lemma BracketingCanMatter()
    ensures var a, b, c := Leaf(Some(Record(Some(1), false, [3], 1))), Leaf(Some(Record(None, true, [], 0))), Leaf(Some(Record(None, false, [], 1)));
      Run(Join(a, Join(b, c))).Aborted? && !Run(Join(Join(a, b), c)).Aborted?
  {
  }

  /** The whole way through a sync: the strand that goes on raises an exception exactly if some record has an active
      one or the one with caught exceptions asks to throw again, and then it raises the leftmost active one. */
  lemma SyncRaises(t: Joins)
    requires AllWellFormed(Leaves(t)) && !Run(t).Aborted?
    ensures var out := Read(Run(t).record);
      && (out.rethrow || out.active.Some? <==> exists i :: 0 <= i < |Leaves(t)| && Raises(Read(Leaves(t)[i])))
      && (out.active.Some? ==> exists i :: 0 <= i < |Leaves(t)| && FirstActive(Leaves(t), i) && out.active == Read(Leaves(t)[i]).active)
  {
    AnyBracketing(t);
    WholeRaises(Leaves(t));
    if Leftmost(Leaves(t)).Some? {
      var i := WhereLeftmost(Leaves(t));
    }
  }

  predicate FirstActive(infos: seq<Option<Record>>, i: nat) {
    i < |infos| && Read(infos[i]).active.Some? && forall j :: 0 <= j < i ==> Read(infos[j]).active == None
  }

  lemma {:induction false} WhereLeftmost(infos: seq<Option<Record>>) returns (i: nat)
    requires Leftmost(infos).Some?
    ensures FirstActive(infos, i) && Leftmost(infos) == Read(infos[i]).active
  {
    if Read(infos[0]).active.Some? {
      i := 0;
    } else {
      i := WhereLeftmost(infos[1..]);
      i := i + 1;
      assert forall j :: 0 < j < i ==> infos[j] == infos[1..][j - 1];
    }
  }

  lemma {:induction false} WholeRaises(infos: seq<Option<Record>>)
    requires AllWellFormed(infos) && Chains(infos) <= 1
    ensures Leftmost(infos).Some? || Chain(infos).rethrow <==> exists i :: 0 <= i < |infos| && Raises(Read(infos[i]))
  {
    if infos != [] {
      var rest := infos[1..];
      WholeRaises(rest);
      Agree(rest);
      if i :| 0 <= i < |rest| && Raises(Read(rest[i])) {
        assert Raises(Read(infos[i + 1]));
      }
      if i :| 0 <= i < |infos| && Raises(Read(infos[i])) {
        assert i > 0 ==> infos[i] == rest[i - 1];
      }
    }
  }
}
