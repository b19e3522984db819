/**
 Pools of fibers and their accounting (cilk_fiber_pool.cpp, cilk_fiber.cpp).  What one locked section does to
 a pool is a function; the methods of the class are proved against these functions, and the books of any
 number of pools, whose sections other workers interleave at will, against the same functions.
 */
module FiberPools {

  type Fiber = nat

  datatype Option<T> = None | Some(value: T)

  /** A pool's fields: its fibers, the last one on top; how many it may hold; how many more fibers it has had from
      the heap than it gave back, and the most that ever was. */
  datatype View = View(items: seq<Fiber>, max: nat, total: int, highWater: int) {
    predicate Valid() {
      |items| <= max && total <= highWater && 0 <= highWater
    }
  }

  /** Fibers to take from a pool for one acquisition of its lock. */
  const B: nat := 10

  // ---------------------------------------------------------------- the locked sections, on values

  function Pushed(v: View, f: Fiber): View {
    v.(items := v.items + [f])
  }

  function Popped(v: View): View
    requires v.items != []
  {
    v.(items := v.items[..|v.items| - 1])
  }

  function CountedUp(v: View): View {
    v.(total := v.total + 1, highWater := if v.highWater < v.total + 1 then v.total + 1 else v.highWater)
  }

  function CountedDown(v: View, n: nat): View {
    v.(total := v.total - n)
  }

  function Min(a: nat, b: nat): nat {
    if a < b then a else b
  }

  /** How many fibers a batch frees. */
  function BatchSize(v: View, keep: nat): nat {
    if |v.items| <= keep then 0 else Min(|v.items| - keep, B)
  }

  /** Whether the batch was the last one. */
  predicate LastBatch(v: View, keep: nat) {
    |v.items| - BatchSize(v, keep) <= keep
  }

  /** One batch: free the topmost fibers, and if few enough are left put the extra one back. */
  function Batched(v: View, keep: nat, back: Option<Fiber>): View {
    var left := v.(items := v.items[..|v.items| - BatchSize(v, keep)], total := v.total - BatchSize(v, keep));
    if LastBatch(v, keep) && back.Some? then Pushed(left, back.value) else left
  }

  /** Child and parent after moving what fits above `keep` upwards, and the child's surplus with it. */
  function Moved(child: View, parent: View, keep: nat): (View, View)
    decreases |child.items|
  {
    if |parent.items| < parent.max && |child.items| > keep then
      Moved(Popped(child), Pushed(parent, child.items[|child.items| - 1]), keep)
    else if child.total < 0 then
      (child.(total := 0), parent.(total := parent.total + child.total))
    else (child, parent)
  }

  /** move_fibers_to_parent_pool: nothing at all if the parent looks full. */
  function MovedToParent(child: View, parent: View, keep: nat): (View, View) {
    if |parent.items| >= parent.max then (child, parent) else Moved(child, parent, keep)
  }

  // ---------------------------------------------------------------- the class

  class Pool {
    const maxSize: nat
    const fibers: array<Fiber>
    var size: nat
    var total: int
    var highWater: int

    ghost predicate Valid()
      reads this, fibers
    {
      fibers.Length == maxSize && size <= maxSize && Get().Valid()
    }

    ghost function Get(): (v: View)
      reads this, fibers
    {
      View(if size <= fibers.Length then fibers[..size] else [], maxSize, total, highWater)
    }

    /** The constructor allocates half and a quarter of the fibers ahead of time: `heap` answers. */
    constructor (bufferSize: nat, heap: seq<Fiber>)
      requires |heap| == bufferSize / 2 + bufferSize / 4
      ensures Valid() && fresh(fibers) && Get() == View(heap, bufferSize, 0, 0)
    {
      maxSize, total, highWater := bufferSize, 0, 0;
      fibers := new Fiber[bufferSize];
      size := 0;
      new;
      var preAllocateCount := bufferSize / 2 + bufferSize / 4;
      while size < preAllocateCount
        invariant size <= preAllocateCount && maxSize == bufferSize == fibers.Length && fresh(fibers)
        invariant total == highWater == 0
        invariant fibers[..size] == heap[..size]
      {
        fibers[size] := heap[size];
        size := size + 1;
      }
    }

    method Push(f: Fiber)
      requires Valid() && size < maxSize
      modifies this`size, fibers
      ensures Valid() && Get() == Pushed(old(Get()), f)
    {
      fibers[size] := f;
      size := size + 1;
      assert fibers[..size] == old(fibers[..size]) + [f];
    }

    method Pop() returns (f: Fiber)
      requires Valid() && size > 0
      modifies this`size
      ensures Valid() && size + 1 == old(size) && Get() == Popped(old(Get())) && f == old(Get()).items[|old(Get()).items| - 1]
    {
      size := size - 1;
      f := fibers[size];
    }

    method IncrementTotal()
      requires Valid()
      modifies this`total, this`highWater
      ensures Valid() && Get() == CountedUp(old(Get()))
    {
      total := total + 1;
      if highWater < total {
        highWater := total;
      }
    }

    method DecrementTotal(fibersFreed: nat)
      requires Valid()
      modifies this`total
      ensures Valid() && Get() == CountedDown(old(Get()), fibersFreed)
    {
      total := total - fibersFreed;
    }

    /** At most B of the topmost fibers are taken out. */
    method TakeOut(numToKeep: nat) returns (fibersToFree: seq<Fiber>)
      requires Valid()
      modifies this, fibers
      ensures Valid() && |fibersToFree| == BatchSize(old(Get()), numToKeep) && size + |fibersToFree| == |old(Get()).items|
      ensures Get() == old(Get()).(items := old(Get()).items[..size])
      ensures multiset(fibersToFree) == Dropped(old(Get()), numToKeep)
    {
      hide View.Valid, Dropped, Popped;
      ghost var was := Get();
      fibersToFree := [];
      assert |was.items| == size && was.items[..size] == was.items && was.items[size..] == [];
      hide Valid, Get;
      while size > numToKeep && |fibersToFree| < B
        invariant |fibersToFree| <= B && size + |fibersToFree| == |was.items|
        invariant Valid() && Get() == was.(items := was.items[..size])
        invariant |fibersToFree| <= BatchSize(was, numToKeep)
        invariant multiset(fibersToFree) == multiset(was.items[size..])
      {
        OneMoreOut(was.items, size, fibersToFree);
        PoppedPrefix(was, size);
        var f := Pop();
        fibersToFree := fibersToFree + [f];
      }
      assert multiset(fibersToFree) == Dropped(was, numToKeep) by { DroppedIs(was, numToKeep, size); }
    }

    /** Stages 2 and 3 of free_fibers_from_pool. */
    method FreeBatch(numToKeep: nat, fiberToReturn: Option<Fiber>) returns (fibersToFree: seq<Fiber>, lastFiberReturned: bool)
      requires Valid() && (fiberToReturn.Some? ==> numToKeep < maxSize)
      modifies this, fibers
      ensures Valid() && Get() == Batched(old(Get()), numToKeep, fiberToReturn)
      ensures |fibersToFree| == BatchSize(old(Get()), numToKeep)
      ensures old(size) > numToKeep ==> |fibersToFree| == if old(size) - numToKeep < 10 then old(size) - numToKeep else 10
      // which fibers: every one that was there is still there or to be freed, once, and the returned one comes on top
      ensures multiset(fibersToFree) == Dropped(old(Get()), numToKeep)
      ensures multiset(fibersToFree) + multiset(Get().items) == multiset(old(Get()).items) + PutBack(old(Get()), numToKeep, fiberToReturn)
      ensures lastFiberReturned == LastBatch(old(Get()), numToKeep)
    {
      hide Batched, LastBatch, PutBack, Dropped, BatchSize, View.Valid;
      ghost var was := Get();
      assert was.Valid() && |was.items| == size && was.max == maxSize;
      hide Valid, Get;
      BatchIs(was, numToKeep, fiberToReturn);
      BatchShares(was, numToKeep, fiberToReturn);
      fibersToFree := TakeOut(numToKeep);
      DecrementTotal(|fibersToFree|);
      lastFiberReturned := false;
      if size <= numToKeep {
        if fiberToReturn.Some? {
          Push(fiberToReturn.value);
        }
        lastFiberReturned := true;
      }
    }

    /** free_fibers_from_pool: batch after batch, until at most numToKeep are left; it terminates. */
    method FreeFibers(numToKeep: nat, fiberToReturn: Option<Fiber>) returns (freed: seq<Fiber>)
      requires Valid() && (fiberToReturn.Some? ==> numToKeep < maxSize)
      modifies this, fibers
      ensures Valid() && |freed| + Min(|old(Get()).items|, numToKeep) == |old(Get()).items|
      ensures Get() == Kept(old(Get()), numToKeep, fiberToReturn)
      ensures multiset(freed) + multiset(Get().items) == multiset(old(Get()).items) + Extra(fiberToReturn)
    {
      hide Batched, BatchSize, LastBatch, Kept, Left, PutBack, Extra, Dropped, View.Valid, Shared;
      freed := [];
      var lastFiberReturned := false;
      ghost var was, left: nat := Get(), size;
      AllLeft(was);
      SharedNone(was.items);
      assert |was.items| == size;
      hide Valid, Get;
      while !lastFiberReturned
        invariant Valid() && left <= |was.items| && left + |freed| == |was.items|
        invariant !lastFiberReturned ==> Get() == Left(was, left) && (numToKeep < left || left == |was.items|)
        invariant lastFiberReturned ==> Get() == Kept(was, numToKeep, fiberToReturn) && left == Min(|was.items|, numToKeep)
        invariant Shared(freed, Get().items, was.items, if lastFiberReturned then Extra(fiberToReturn) else multiset{})
        decreases if lastFiberReturned then 0 else left + 1
      {
        OneMoreBatch(was, left, numToKeep, fiberToReturn);
        ghost var now := Get();
        var batch;
        batch, lastFiberReturned := FreeBatch(numToKeep, fiberToReturn);
        SharedOn(freed, batch, was.items, now, Get().items, numToKeep, fiberToReturn);
        freed := freed + batch;
        left := left - |batch|;
      }
      SharedMeans(freed, Get().items, was.items, Extra(fiberToReturn));
    }

    /** move_fibers_to_parent_pool. */
    method MoveToParent(parent: Pool, numToKeep: nat)
      requires Valid() && parent.Valid() && parent != this && parent.fibers != fibers
      modifies this, parent, parent.fibers
      ensures Valid() && parent.Valid() && (Get(), parent.Get()) == MovedToParent(old(Get()), old(parent.Get()), numToKeep)
    {
      if parent.size >= parent.maxSize {
        return;
      }
      ghost var goal := Moved(Get(), parent.Get(), numToKeep);
      while parent.size < parent.maxSize && size > numToKeep
        invariant Valid() && parent.Valid() && goal == Moved(Get(), parent.Get(), numToKeep)
        decreases size
      {
        var f := Pop();
        parent.Push(f);
      }
      if total < 0 {
        parent.total := parent.total + total;
        total := 0;
      }
    }

    /** cilk_fiber_pool_destroy: what the parent has room for goes there, the rest to the heap. */
    method Destroy(parent: Pool?) returns (freed: seq<Fiber>)
      requires Valid() && (parent != null ==> parent.Valid() && parent != this && parent.fibers != fibers)
      modifies this, fibers, parent, if parent != null then {parent.fibers} else {}
      ensures Valid() && Get().items == []
      ensures parent != null ==> parent.Valid()
      ensures var old' := if parent == null then old(Get()) else MovedToParent(old(Get()), old(parent.Get()), 0).0;
        Get() == Kept(old', 0, None) && |freed| == |old'.items|
      ensures parent != null ==> parent.Get() == MovedToParent(old(Get()), old(parent.Get()), 0).1
      ensures parent != null ==> |freed| + |parent.Get().items| == |old(Get()).items| + |old(parent.Get()).items|
      ensures parent == null ==> |freed| == |old(Get()).items|
      // every fiber goes one of the two ways
      ensures multiset(freed) + (if parent == null then multiset{} else multiset(parent.Get().items))
           == multiset(old(Get()).items) + (if parent == null then multiset{} else multiset(old(parent.Get()).items))
    {
      hide Moved, Kept;
      KeptNone(Get());
      if parent != null {
        MovedKeeps(Get(), parent.Get(), 0);
        MoveToParent(parent, 0);
        KeptNone(Get());
      }
      freed := FreeFibers(0, None);
      assert multiset(freed) + multiset{} == multiset(freed);
    }

    /** deallocate_self: back into the pool, making room first if it is full.  A pool that can hold nothing fails
        the assertion in free_fibers_from_pool: max_size - 1 is unsigned there, so nothing is freed. */
    method Deallocate(f: Fiber) returns (aborted: bool, freed: seq<Fiber>)
      requires Valid()
      modifies this, fibers
      ensures aborted <==> maxSize == 0
      ensures aborted ==> Get() == old(Get())
      ensures !aborted ==> Valid() && Get() == Kept(old(Get()), maxSize - 1, Some(f))
      ensures !aborted ==> |freed| == if old(size) < maxSize then 0 else 1
      ensures !aborted ==> multiset(freed) + multiset(Get().items) == multiset(old(Get()).items) + multiset{f}
    {
      if size < maxSize {
        Push(f);
        return false, [];
      }
      if maxSize == 0 {
        return true, [];
      }
      freed := FreeFibers(maxSize - 1, Some(f));
      aborted := false;
    }
  }

  lemma KeptNone(v: View)
    ensures Kept(v, 0, None).items == []
  {
  }

  lemma OneMoreOut(items: seq<Fiber>, n: nat, out: seq<Fiber>)
    requires 0 < n <= |items| && multiset(out) == multiset(items[n..])
    ensures multiset(out + [items[n - 1]]) == multiset(items[n - 1..])
  {
    assert items[n - 1..] == [items[n - 1]] + items[n..];
  }

  lemma PoppedPrefix(v: View, n: nat)
    requires 0 < n <= |v.items|
    ensures var w := v.(items := v.items[..n]);
      Popped(w) == v.(items := v.items[..n - 1]) && w.items[|w.items| - 1] == v.items[n - 1]
  {
  }

  lemma DroppedIs(v: View, keep: nat, n: nat)
    requires n + BatchSize(v, keep) == |v.items|
    ensures Dropped(v, keep) == multiset(v.items[n..])
  {
  }

  /** A batch, in terms of how many fibers it leaves. */
  lemma BatchIs(v: View, keep: nat, back: Option<Fiber>)
    ensures BatchSize(v, keep) <= |v.items|
    ensures keep < |v.items| ==> BatchSize(v, keep) == if |v.items| - keep < 10 then |v.items| - keep else 10
    ensures var n := |v.items| - BatchSize(v, keep);
      var left := v.(items := v.items[..n], total := v.total - BatchSize(v, keep));
      && (LastBatch(v, keep) <==> n <= keep)
      && Batched(v, keep, back) == if n <= keep && back.Some? then Pushed(left, back.value) else left
  {
  }

  function Extra(back: Option<Fiber>): multiset<Fiber> {
    if back.Some? then multiset{back.value} else multiset{}
  }

  lemma NothingYet(v: View, keep: nat, back: Option<Fiber>)
    ensures PutBack(v, keep, back) == if LastBatch(v, keep) then Extra(back) else multiset{}
  {
  }

  /** Every fiber that was there, or is extra, was freed or is still there, once. */
  ghost predicate Shared(freed: seq<Fiber>, items: seq<Fiber>, was: seq<Fiber>, extra: multiset<Fiber>) {
    multiset(freed) + multiset(items) == multiset(was) + extra
  }

  lemma SharedNone(items: seq<Fiber>)
    ensures Shared([], items, items, multiset{})
  {
  }

  lemma SharedMeans(freed: seq<Fiber>, items: seq<Fiber>, was: seq<Fiber>, extra: multiset<Fiber>)
    requires Shared(freed, items, was, extra)
    ensures multiset(freed) + multiset(items) == multiset(was) + extra
  {
  }

  lemma SharedOn(freed: seq<Fiber>, batch: seq<Fiber>, was: seq<Fiber>, now: View, items: seq<Fiber>, keep: nat, back: Option<Fiber>)
    requires Shared(freed, now.items, was, multiset{})
    requires multiset(batch) + multiset(items) == multiset(now.items) + PutBack(now, keep, back)
    ensures Shared(freed + batch, items, was, if LastBatch(now, keep) then Extra(back) else multiset{})
  {
    hide LastBatch;
    NothingYet(now, keep, back);
    Together(multiset(freed), multiset(batch), multiset(now.items), multiset(items), PutBack(now, keep, back));
    assert multiset(freed + batch) == multiset(freed) + multiset(batch);
  }

  lemma Together(freed: multiset<Fiber>, batch: multiset<Fiber>, items: multiset<Fiber>, items': multiset<Fiber>, back: multiset<Fiber>)
    requires batch + items' == items + back
    ensures freed + batch + items' == freed + items + back
  {
    forall f ensures (freed + batch + items')[f] == (freed + items + back)[f] {
      assert (batch + items')[f] == (items + back)[f];
    }
  }

  /** All but the lowest `keep` fibers are gone, and the extra one is on top. */
  function Kept(v: View, keep: nat, back: Option<Fiber>): View {
    var n := Min(|v.items|, keep);
    var left := v.(items := v.items[..n], total := v.total - (|v.items| - n));
    if back.Some? then Pushed(left, back.value) else left
  }

  /** All but the lowest n fibers were freed. */
  function Left(was: View, n: nat): View
    requires n <= |was.items|
  {
    was.(items := was.items[..n], total := was.total - (|was.items| - n))
  }

  lemma AllLeft(was: View)
    ensures Left(was, |was.items|) == was
  {
  }

  lemma OneMoreBatch(was: View, left: nat, keep: nat, back: Option<Fiber>)
    requires left <= |was.items| && (keep < left || left == |was.items|)
    ensures var now := Left(was, left);
      var left' := left - BatchSize(now, keep);
      && 0 <= left' <= left && (!LastBatch(now, keep) ==> left' < left && keep < left')
      && Batched(now, keep, back) == (if LastBatch(now, keep) then Kept(was, keep, back) else Left(was, left'))
      && (LastBatch(now, keep) ==> left' == Min(|was.items|, keep))
  {
    var left' := left - BatchSize(Left(was, left), keep);
    assert was.items[..left][..left'] == was.items[..left'];
  }

  lemma {:induction false} MovedKeeps(child: View, parent: View, keep: nat)
    ensures var (c, p) := Moved(child, parent, keep);
      && |c.items| + |p.items| == |child.items| + |parent.items| && c.total + p.total == child.total + parent.total
      && multiset(c.items) + multiset(p.items) == multiset(child.items) + multiset(parent.items)
      && c.max == child.max && p.max == parent.max
      && (child.Valid() && parent.Valid() ==> c.Valid() && p.Valid())
    decreases |child.items|
  {
    if |parent.items| < parent.max && |child.items| > keep {
      var f := child.items[|child.items| - 1];
      assert child.items == child.items[..|child.items| - 1] + [f];
      MovedKeeps(Popped(child), Pushed(parent, f), keep);
    }
  }

  /** The n topmost fibers, from the top down. */
  function TopDown(items: seq<Fiber>, n: nat): seq<Fiber>
    requires n <= |items|
  {
    if n == 0 then [] else [items[|items| - 1]] + TopDown(items[..|items| - 1], n - 1)
  }

  /** How many fibers a parent with room takes. */
  function Room(child: View, parent: View, keep: nat): (n: nat)
    ensures n <= |child.items|
  {
    if |child.items| <= keep || parent.max <= |parent.items| then 0 else Min(|child.items| - keep, parent.max - |parent.items|)
  }

  lemma {:induction false} MovedIs(child: View, parent: View, keep: nat)
    ensures var (c, p) := Moved(child, parent, keep);
      var n := Room(child, parent, keep);
      && c.items == child.items[..|child.items| - n] && p.items == parent.items + TopDown(child.items, n)
      && c.highWater == child.highWater && p.highWater == parent.highWater && c.max == child.max && p.max == parent.max
      && (if child.total < 0 then c.total == 0 && p.total == parent.total + child.total else c.total == child.total && p.total == parent.total)
    decreases |child.items|
  {
    var n := Room(child, parent, keep);
    if n > 0 {
      var f, popped := child.items[|child.items| - 1], Popped(child);
      MovedIs(popped, Pushed(parent, f), keep);
      assert popped.items[..|popped.items| - (n - 1)] == child.items[..|child.items| - n];
      assert (parent.items + [f]) + TopDown(popped.items, n - 1) == parent.items + TopDown(child.items, n);
    }
  }

  /** How far a move goes: until the parent is full or no more than `keep` fibers are left; and a child whose parent had
      room is left no negative total, while no pool ends with more than both had. */
  lemma MovesAsFar(child: View, parent: View, keep: nat)
    requires parent.Valid()
    ensures var (c, p) := MovedToParent(child, parent, keep);
      && |parent.items| <= |p.items| && (|p.items| == p.max || |c.items| <= keep)
      && (|child.items| <= keep ==> c.items == child.items) && (keep < |child.items| ==> keep <= |c.items|)
      && c.items + Reversed(p.items[|parent.items|..]) == child.items && p.items[..|parent.items|] == parent.items
      && (|parent.items| == parent.max ==> c == child && p == parent)
      && (|parent.items| < parent.max ==> c.total == (if child.total < 0 then 0 else child.total))
  {
    var n := Room(child, parent, keep);
    MovedIs(child, parent, keep);
    ReversedTop(child.items, n);
    hide Moved, TopDown, Reversed;
    assert (parent.items + TopDown(child.items, n))[|parent.items|..] == TopDown(child.items, n);
  }

  function Reversed(s: seq<Fiber>): seq<Fiber> {
    if s == [] then [] else Reversed(s[1..]) + [s[0]]
  }

  lemma {:induction false} ReversedTop(items: seq<Fiber>, n: nat)
    requires n <= |items|
    ensures items[..|items| - n] + Reversed(TopDown(items, n)) == items && |TopDown(items, n)| == n
  {
    if n > 0 {
      var rest := items[..|items| - 1];
      ReversedTop(rest, n - 1);
      assert rest[..|rest| - (n - 1)] == items[..|items| - n];
      assert TopDown(items, n)[1..] == TopDown(rest, n - 1);
      assert items == rest + [items[|items| - 1]];
    }
  }

  /** max_size - 1, which is unsigned. */
  function OneLess(max: nat): nat {
    if max == 0 then 0xFFFF_FFFF else max - 1
  }

  /** Freeing down to max_size - 1 makes room in a full pool exactly if the pool can hold anything at all. */
  lemma RoomForOne(v: View)
    requires v.Valid() && |v.items| == v.max
    ensures |Kept(v, OneLess(v.max), None).items| < v.max <==> 1 <= v.max
  {
  }

  // ---------------------------------------------------------------- cilk_fiber::allocate

  /** Pool `v` was asked, and could not help: its total went up and down again. */
  function Tried(v: View): View {
    CountedDown(CountedUp(v), 1)
  }

  /** Ask pool k, and failing that its parent k + 1, and so on; heap[j] is the heap's answer if pool j asks it. */
  function Allocated(vs: seq<View>, k: nat, heap: seq<Option<Fiber>>): (seq<View>, Option<Fiber>)
    requires k < |vs| == |heap|
    decreases |vs| - k
  {
    var ws, ret := vs[k := Asked(vs[k], heap[k])], Answer(vs[k], heap[k]);
    if ret == None && k + 1 < |vs| then Allocated(ws, k + 1, heap) else (ws, ret)
  }

  /** What asking one pool does to it, and gives. */
  function Asked(v: View, heap: Option<Fiber>): View {
    if v.items != [] then Popped(v) else if heap.Some? then CountedUp(v) else Tried(v)
  }

  function Answer(v: View, heap: Option<Fiber>): Option<Fiber> {
    if v.items != [] then Some(v.items[|v.items| - 1]) else heap
  }

  /** A pool and its ancestors. */
  ghost function Views(ps: seq<Pool>): (vs: seq<View>)
    reads ps, set i | 0 <= i < |ps| :: ps[i].fibers
    ensures |vs| == |ps|
  {
    seq(|ps|, i requires 0 <= i < |ps| reads ps, set i | 0 <= i < |ps| :: ps[i].fibers => ps[i].Get())
  }

  ghost predicate Chain(ps: seq<Pool>)
    reads ps, set i | 0 <= i < |ps| :: ps[i].fibers
  {
    (forall i :: 0 <= i < |ps| ==> ps[i].Valid()) && (forall i, j :: 0 <= i < j < |ps| ==> ps[i] != ps[j])
  }

  /** Ask one pool: what it has, or the heap on its account. */
  method AllocateHere(p: Pool, heap: Option<Fiber>) returns (ret: Option<Fiber>)
    requires p.Valid()
    modifies p
    ensures p.Valid() && p.Get() == Asked(old(p.Get()), heap) && ret == Answer(old(p.Get()), heap)
  {
    if p.size > 0 {
      var f := p.Pop();
      return Some(f);
    }
    p.IncrementTotal();
    if heap.Some? {
      return heap;
    }
    p.DecrementTotal(1);
    return None;
  }

  method AskNth(ps: seq<Pool>, k: nat, heap: Option<Fiber>) returns (ret: Option<Fiber>)
    requires k < |ps| && Chain(ps)
    modifies ps[k]
    ensures Chain(ps) && Views(ps) == old(Views(ps))[k := Asked(old(Views(ps))[k], heap)]
    ensures ret == Answer(old(Views(ps))[k], heap)
  {
    ghost var vs := Views(ps);
    ret := AllocateHere(ps[k], heap);
    hide Asked, Answer;
    assert forall j :: 0 <= j < |ps| && j != k ==> ps[j].Get() == vs[j];
  }

  method Allocate(ps: seq<Pool>, k: nat, heap: seq<Option<Fiber>>) returns (ret: Option<Fiber>)
    requires k < |ps| == |heap| && Chain(ps)
    modifies ps
    ensures Chain(ps) && (Views(ps), ret) == Allocated(old(Views(ps)), k, heap)
    decreases |ps| - k
  {
    hide Asked, Answer;
    ghost var vs := Views(ps);
    ret := AskNth(ps, k, heap[k]);
    if ret == None && k + 1 < |ps| {
      ret := Allocate(ps, k + 1, heap);
    }
  }

  /** Whichever pool helps, the sizes less the totals go down by one exactly if there is a fiber, and no pool's
      bounds are broken. */
  lemma {:induction false} AllocationBalances(vs: seq<View>, k: nat, heap: seq<Option<Fiber>>)
    requires k < |vs| == |heap| && forall i :: 0 <= i < |vs| ==> vs[i].Valid()
    ensures var (ws, ret) := Allocated(vs, k, heap);
      && |ws| == |vs| && (forall i :: 0 <= i < |ws| ==> ws[i].Valid())
      && Sizes(ws) - Totals(ws) + (if ret.Some? then 1 else 0) == Sizes(vs) - Totals(vs)
      && (ret == None <==> forall j :: k <= j < |vs| ==> vs[j].items == [] && heap[j] == None)
    decreases |vs| - k
  {
    var v := vs[k];
    var w := Asked(v, heap[k]);
    TotalsUpdate(vs, k, w);
    SizesUpdate(vs, k, w);
    if v.items == [] && heap[k] == None && k + 1 < |vs| {
      var us := vs[k := w];
      AllocationBalances(us, k + 1, heap);
      assert Allocated(vs, k, heap) == Allocated(us, k + 1, heap);
      assert forall j :: k + 1 <= j < |vs| ==> us[j] == vs[j];
    }
  }

  /** The first pool from k up that can help, by a fiber of its own or by the heap's answer. */
  function Helper(vs: seq<View>, k: nat, heap: seq<Option<Fiber>>): (j: nat)
    requires k <= |vs| == |heap|
    ensures k <= j <= |vs| && (j < |vs| ==> vs[j].items != [] || heap[j].Some?)
    ensures forall i :: k <= i < j ==> vs[i].items == [] && heap[i] == None
    decreases |vs| - k
  {
    if k == |vs| || vs[k].items != [] || heap[k].Some? then k else Helper(vs, k + 1, heap)
  }

  /** It gives its topmost fiber, or else the heap's, which is then counted in its total; the pools before it had their totals
      counted up and down again, and the others were not asked. */
  lemma {:induction false} AllocatedByHelper(vs: seq<View>, k: nat, heap: seq<Option<Fiber>>)
    requires k < |vs| == |heap|
    ensures var (ws, ret) := Allocated(vs, k, heap);
      var j := Helper(vs, k, heap);
      && |ws| == |vs| && (forall i :: 0 <= i < |vs| && (i < k || j < i) ==> ws[i] == vs[i])
      && (forall i :: k <= i < j ==> ws[i].items == [] && ws[i].total == vs[i].total)
      && (j == |vs| ==> ret == None)
      && (j < |vs| ==>
            && ret == (if vs[j].items != [] then Some(vs[j].items[|vs[j].items| - 1]) else heap[j])
            && ws[j].items == (if vs[j].items != [] then vs[j].items[..|vs[j].items| - 1] else [])
            && ws[j].total == (if vs[j].items != [] then vs[j].total else vs[j].total + 1))
    decreases |vs| - k
  {
    var us := vs[k := Asked(vs[k], heap[k])];
    if vs[k].items == [] && heap[k] == None && k + 1 < |vs| {
      AllocatedByHelper(us, k + 1, heap);
      SameHelper(vs, us, k + 1, heap);
      assert Allocated(vs, k, heap) == Allocated(us, k + 1, heap);
    } else {
      assert Allocated(vs, k, heap) == (us, Answer(vs[k], heap[k]));
    }
  }

  lemma {:induction false} SameHelper(vs: seq<View>, us: seq<View>, k: nat, heap: seq<Option<Fiber>>)
    requires k <= |vs| == |us| == |heap| && forall i :: k <= i < |vs| ==> us[i] == vs[i]
    ensures Helper(us, k, heap) == Helper(vs, k, heap)
    decreases |vs| - k
  {
    if k < |vs| {
      SameHelper(vs, us, k + 1, heap);
    }
  }

  /** The fiber has left the pools, or it comes from the heap and they hold what they held. */
  ghost predicate LeftOrNew(was: multiset<Fiber>, now: multiset<Fiber>, ret: Option<Fiber>, heap: seq<Option<Fiber>>) {
    (ret.Some? && was == now + multiset{ret.value}) || (was == now && (ret.Some? ==> ret in heap))
  }

  lemma {:induction false} AllocationMoves(vs: seq<View>, k: nat, heap: seq<Option<Fiber>>)
    requires k < |vs| == |heap|
    ensures var (ws, ret) := Allocated(vs, k, heap); LeftOrNew(Union(vs), Union(ws), ret, heap)
    decreases |vs| - k
  {
    hide Union;
    AskedMoves(vs, k, heap[k]);
    var us := vs[k := Asked(vs[k], heap[k])];
    if Answer(vs[k], heap[k]) == None && k + 1 < |vs| {
      AllocationMoves(us, k + 1, heap);
      assert Allocated(vs, k, heap) == Allocated(us, k + 1, heap);
    } else {
      assert Allocated(vs, k, heap) == (us, Answer(vs[k], heap[k]));
    }
  }

  /** What asking one pool does to the fibers in the pools. */
  lemma AskedMoves(vs: seq<View>, k: nat, heap: Option<Fiber>)
    requires k < |vs|
    ensures var v, us := vs[k], vs[k := Asked(vs[k], heap)];
      Union(vs) == Union(us) + (if v.items != [] then multiset{v.items[|v.items| - 1]} else multiset{})
  {
    var v, w := vs[k], Asked(vs[k], heap);
    UnionUpdate(vs, k, w);
    hide Union;
    if v.items != [] {
      var f := v.items[|v.items| - 1];
      assert v.items == w.items + [f];
      CancelItems(Union(vs[k := w]), Union(vs), multiset(w.items), multiset{f});
    } else {
      assert w.items == [];
    }
  }

  lemma CancelItems(u': multiset<Fiber>, u: multiset<Fiber>, items: multiset<Fiber>, f: multiset<Fiber>)
    requires u' + (items + f) == u + items
    ensures u == u' + f
  {
    forall x ensures u[x] == (u' + f)[x] {
      assert (u' + (items + f))[x] == (u + items)[x];
    }
  }

  // ---------------------------------------------------------------- the books

  /** All pools; the fibers in use; the fibers allocated and not freed; how many are counted in some total while
      the heap is being asked; and how many came with the pools. */
  datatype Books = Books(pools: seq<View>, out: multiset<Fiber>, live: multiset<Fiber>, pending: nat, prealloc: nat)

  /** The sections that run under one pool's lock, or two; FromHeap needs none. */
  datatype Section =
    | NewPool(size: nat, fibers: seq<Fiber>)
    | Take(i: nat)
    | Give(i: nat, f: Fiber)
    | Up(i: nat)
    | Down(i: nat)
    | FromHeap(f: Fiber)
    | Batch(i: nat, keep: nat, back: Option<Fiber>)
    | Move(i: nat, j: nat, keep: nat)

  ghost predicate Enabled(b: Books, s: Section) {
    match s
    case NewPool(size, fibers) =>
      |fibers| == size / 2 + size / 4 && forall f :: f in multiset(fibers) ==> multiset(fibers)[f] == 1 && f !in b.live
    case Take(i) => i < |b.pools| && b.pools[i].items != []
    case Give(i, f) => i < |b.pools| && |b.pools[i].items| < b.pools[i].max && f in b.out
    case Up(i) => i < |b.pools|
    case Down(i) => i < |b.pools| && b.pending > 0
    case FromHeap(f) => b.pending > 0 && f !in b.live
    case Batch(i, keep, back) => i < |b.pools| && (back.Some? ==> back.value in b.out && keep < b.pools[i].max)
    case Move(i, j, keep) => i < |b.pools| && j < |b.pools| && i != j
  }

  /** What a batch gives back to the heap. */
  function Dropped(v: View, keep: nat): multiset<Fiber> {
    multiset(v.items[|v.items| - BatchSize(v, keep)..])
  }

  ghost function Do(b: Books, s: Section): Books
    requires Enabled(b, s)
  {
    match s
    case NewPool(size, fibers) =>
      b.(pools := b.pools + [View(fibers, size, 0, 0)], live := b.live + multiset(fibers), prealloc := b.prealloc + |fibers|)
    case Take(i) =>
      var v := b.pools[i];
      b.(pools := b.pools[i := Popped(v)], out := b.out + multiset{v.items[|v.items| - 1]})
    case Give(i, f) => b.(pools := b.pools[i := Pushed(b.pools[i], f)], out := b.out - multiset{f})
    case Up(i) => b.(pools := b.pools[i := CountedUp(b.pools[i])], pending := b.pending + 1)
    case Down(i) => b.(pools := b.pools[i := CountedDown(b.pools[i], 1)], pending := b.pending - 1)
    case FromHeap(f) => b.(out := b.out + multiset{f}, live := b.live + multiset{f}, pending := b.pending - 1)
    case Batch(i, keep, back) =>
      var v := b.pools[i];
      b.(pools := b.pools[i := Batched(v, keep, back)], live := b.live - Dropped(v, keep),
         out := if LastBatch(v, keep) && back.Some? then b.out - multiset{back.value} else b.out)
    case Move(i, j, keep) =>
      var (c, p) := MovedToParent(b.pools[i], b.pools[j], keep);
      b.(pools := b.pools[i := c][j := p])
  }

  ghost function Union(ps: seq<View>): multiset<Fiber> {
    if ps == [] then multiset{} else Union(ps[..|ps| - 1]) + multiset(ps[|ps| - 1].items)
  }

  ghost function Totals(ps: seq<View>): int {
    if ps == [] then 0 else Totals(ps[..|ps| - 1]) + ps[|ps| - 1].total
  }

  ghost function Sizes(ps: seq<View>): int {
    if ps == [] then 0 else Sizes(ps[..|ps| - 1]) + |ps[|ps| - 1].items|
  }

  /** How often f is in the pools. */
  ghost function Copies(ps: seq<View>, f: Fiber): int {
    if ps == [] then 0 else Copies(ps[..|ps| - 1], f) + multiset(ps[|ps| - 1].items)[f]
  }

  lemma {:induction false} CopiesUpdate(ps: seq<View>, i: nat, v: View, f: Fiber)
    requires i < |ps|
    ensures Copies(ps[i := v], f) == Copies(ps, f) - multiset(ps[i].items)[f] + multiset(v.items)[f]
  {
    var n, qs := |ps| - 1, ps[i := v];
    assert |qs| == |ps| && qs != [] && ps != [];
    assert Copies(qs, f) == Copies(qs[..n], f) + multiset(qs[n].items)[f];
    assert Copies(ps, f) == Copies(ps[..n], f) + multiset(ps[n].items)[f];
    if i == n {
      assert qs[..n] == ps[..n];
    } else {
      var init := ps[..n];
      CopiesUpdate(init, i, v, f);
      assert init[i] == ps[i] && qs[n] == ps[n];
      assert qs[..n] == init[i := v];
    }
  }

  lemma {:induction false} UnionCopies(ps: seq<View>, f: Fiber)
    ensures Union(ps)[f] == Copies(ps, f)
  {
    if ps != [] {
      UnionCopies(ps[..|ps| - 1], f);
    }
  }

  lemma UnionUpdate(ps: seq<View>, i: nat, v: View)
    requires i < |ps|
    ensures Union(ps[i := v]) + multiset(ps[i].items) == Union(ps) + multiset(v.items)
  {
    hide Union, Copies;
    forall f: Fiber ensures (Union(ps[i := v]) + multiset(ps[i].items))[f] == (Union(ps) + multiset(v.items))[f] {
      UnionCopies(ps, f);
      UnionCopies(ps[i := v], f);
      CopiesUpdate(ps, i, v, f);
    }
  }

  lemma {:induction false} SizesUpdate(ps: seq<View>, i: nat, v: View)
    requires i < |ps|
    ensures Sizes(ps[i := v]) == Sizes(ps) - |ps[i].items| + |v.items|
  {
    UnionSize(ps);
    UnionSize(ps[i := v]);
    UnionUpdate(ps, i, v);
    assert |Union(ps[i := v]) + multiset(ps[i].items)| == |Union(ps) + multiset(v.items)|;
  }

  lemma {:induction false} TotalsUpdate(ps: seq<View>, i: nat, v: View)
    requires i < |ps|
    ensures Totals(ps[i := v]) == Totals(ps) - ps[i].total + v.total
  {
    var n, qs := |ps| - 1, ps[i := v];
    assert |qs| == |ps| && qs != [] && ps != [];
    assert Totals(qs) == Totals(qs[..n]) + qs[n].total;
    assert Totals(ps) == Totals(ps[..n]) + ps[n].total;
    if i == n {
      assert qs[..n] == ps[..n];
    } else {
      var init := ps[..n];
      TotalsUpdate(init, i, v);
      assert init[i] == ps[i] && qs[n] == ps[n];
      assert qs[..n] == init[i := v];
    }
  }

  lemma {:induction false} UnionSize(ps: seq<View>)
    ensures |Union(ps)| == Sizes(ps)
  {
    if ps != [] {
      UnionSize(ps[..|ps| - 1]);
    }
  }

  lemma {:induction false} InUnion(ps: seq<View>, i: nat)
    requires i < |ps|
    ensures multiset(ps[i].items) <= Union(ps)
  {
    if i < |ps| - 1 {
      InUnion(ps[..|ps| - 1], i);
      assert ps[..|ps| - 1][i] == ps[i];
    }
  }

  /** Every live fiber is once in one pool or once in use; there are as many as came with the pools and as the
      totals say; and every pool keeps its bounds. */
  ghost predicate Inv(b: Books) {
    && (forall i :: 0 <= i < |b.pools| ==> b.pools[i].Valid())
    && Union(b.pools) + b.out == b.live
    && (forall f :: f in b.live ==> b.live[f] == 1)
    && |b.live| + b.pending == b.prealloc + Totals(b.pools)
  }

  lemma NewPoolKeeps(b: Books, size: nat, fibers: seq<Fiber>)
    requires Inv(b) && Enabled(b, NewPool(size, fibers))
    ensures Inv(Do(b, NewPool(size, fibers)))
  {
    var b' := Do(b, NewPool(size, fibers));
    assert b'.pools[..|b.pools|] == b.pools;
    forall f | f in b'.live ensures b'.live[f] == 1 {
      assert f in b.live || f in multiset(fibers);
    }
  }

  /** Pool i changed from v to v'; d of its fibers went back to the heap, e came in from those in use, g went out. */
  lemma OnePoolChanged(b: Books, b': Books, i: nat, v': View, d: multiset<Fiber>, e: multiset<Fiber>, g: multiset<Fiber>)
    requires Inv(b) && i < |b.pools| && v'.Valid() && b'.pools == b.pools[i := v']
    requires multiset(v'.items) + d + g == multiset(b.pools[i].items) + e && e <= b.out
    requires b'.out == b.out - e + g && b'.live == b.live - d && d <= multiset(b.pools[i].items)
    requires b'.prealloc == b.prealloc && b'.pending - b.pending == v'.total - b.pools[i].total + |d|
    ensures Inv(b')
  {
    hide Union, Totals;
    UnionUpdate(b.pools, i, v');
    TotalsUpdate(b.pools, i, v');
    InUnion(b.pools, i);
    Shuffle(Union(b.pools), Union(b'.pools), multiset(b.pools[i].items), multiset(v'.items), d, e, g, b.out, b.live);
  }

  lemma Shuffle(u: multiset<Fiber>, u': multiset<Fiber>, items: multiset<Fiber>, items': multiset<Fiber>,
                d: multiset<Fiber>, e: multiset<Fiber>, g: multiset<Fiber>, out: multiset<Fiber>, live: multiset<Fiber>)
    requires u + out == live && items' + d + g == items + e && u' + items == u + items' && e <= out && d <= items <= u
    ensures u' + (out - e + g) == live - d && |live - d| == |live| - |d|
  {
    forall f ensures (u' + (out - e + g))[f] == (live - d)[f] {
      assert (u' + items)[f] == (u + items')[f] && (items' + d + g)[f] == (items + e)[f];
    }
    assert live == (live - d) + d;
  }

  lemma TakeKeeps(b: Books, i: nat)
    requires Inv(b) && Enabled(b, Take(i))
    ensures Inv(Do(b, Take(i)))
  {
    var v := b.pools[i];
    var f := v.items[|v.items| - 1];
    assert v.items == Popped(v).items + [f];
    OnePoolChanged(b, Do(b, Take(i)), i, Popped(v), multiset{}, multiset{}, multiset{f});
  }

  lemma GiveKeeps(b: Books, i: nat, f: Fiber)
    requires Inv(b) && Enabled(b, Give(i, f))
    ensures Inv(Do(b, Give(i, f)))
  {
    OnePoolChanged(b, Do(b, Give(i, f)), i, Pushed(b.pools[i], f), multiset{}, multiset{f}, multiset{});
  }

  lemma CountKeeps(b: Books, s: Section)
    requires Inv(b) && Enabled(b, s) && (s.Up? || s.Down?)
    ensures Inv(Do(b, s))
  {
    var v := b.pools[s.i];
    OnePoolChanged(b, Do(b, s), s.i, if s.Up? then CountedUp(v) else CountedDown(v, 1), multiset{}, multiset{}, multiset{});
  }

  lemma FromHeapKeeps(b: Books, f: Fiber)
    requires Inv(b) && Enabled(b, FromHeap(f))
    ensures Inv(Do(b, FromHeap(f)))
  {
  }

  lemma BatchKeeps(b: Books, i: nat, keep: nat, back: Option<Fiber>)
    requires Inv(b) && Enabled(b, Batch(i, keep, back))
    ensures Inv(Do(b, Batch(i, keep, back)))
  {
    hide Batched, Dropped, LastBatch, BatchSize, Union, Totals, Inv;
    var v := b.pools[i];
    FromInv(b, i);
    var e := PutBack(v, keep, back);
    BatchMoves(v, keep, back);
    OnePoolChanged(b, Do(b, Batch(i, keep, back)), i, Batched(v, keep, back), Dropped(v, keep), e, multiset{});
  }

  lemma FromInv(b: Books, i: nat)
    requires Inv(b) && i < |b.pools|
    ensures b.pools[i].Valid()
  {
  }

  /** The extra fiber, if the batch is the last. */
  function PutBack(v: View, keep: nat, back: Option<Fiber>): multiset<Fiber> {
    if LastBatch(v, keep) && back.Some? then multiset{back.value} else multiset{}
  }

  /** Every fiber is freed or still there, once. */
  lemma BatchShares(v: View, keep: nat, back: Option<Fiber>)
    requires v.Valid() && (back.Some? ==> keep < v.max)
    ensures Batched(v, keep, back).Valid()
    ensures Dropped(v, keep) + multiset(Batched(v, keep, back).items) == multiset(v.items) + PutBack(v, keep, back)
  {
    BatchMoves(v, keep, back);
    Swap(Dropped(v, keep), multiset(Batched(v, keep, back).items), multiset{});
  }

  /** What a batch does to the fibers and the total. */
  lemma BatchMoves(v: View, keep: nat, back: Option<Fiber>)
    requires v.Valid() && (back.Some? ==> keep < v.max)
    ensures Batched(v, keep, back).Valid() && Batched(v, keep, back).total == v.total - |Dropped(v, keep)|
    ensures multiset(Batched(v, keep, back).items) + Dropped(v, keep) + multiset{} == multiset(v.items) + PutBack(v, keep, back)
    ensures Dropped(v, keep) <= multiset(v.items)
  {
    var n := |v.items| - BatchSize(v, keep);
    assert v.items == v.items[..n] + v.items[n..];
    var kept, dropped := multiset(v.items[..n]), Dropped(v, keep);
    assert multiset(v.items) == kept + dropped && |dropped| == BatchSize(v, keep);
    if LastBatch(v, keep) && back.Some? {
      assert multiset(v.items[..n] + [back.value]) == kept + multiset{back.value};
      Swap(kept, multiset{back.value}, dropped);
    }
  }

  lemma Swap(a: multiset<Fiber>, b: multiset<Fiber>, c: multiset<Fiber>)
    ensures (a + b) + c + multiset{} == (a + c) + b
  {
  }

  lemma MoveKeeps(b: Books, i: nat, j: nat, keep: nat)
    requires Inv(b) && Enabled(b, Move(i, j, keep))
    ensures Inv(Do(b, Move(i, j, keep)))
  {
    hide Moved, Union, Totals;
    var (c, p) := MovedToParent(b.pools[i], b.pools[j], keep);
    MovedKeeps(b.pools[i], b.pools[j], keep);
    TwoPoolsChanged(b.pools, i, j, c, p);
  }

  /** Two pools changed, but not what they hold together. */
  lemma TwoPoolsChanged(ps: seq<View>, i: nat, j: nat, c: View, p: View)
    requires i < |ps| && j < |ps| && i != j && c.total + p.total == ps[i].total + ps[j].total
    requires multiset(c.items) + multiset(p.items) == multiset(ps[i].items) + multiset(ps[j].items)
    ensures Union(ps[i := c][j := p]) == Union(ps) && Totals(ps[i := c][j := p]) == Totals(ps)
  {
    hide Union, Totals;
    UnionUpdate(ps, i, c);
    UnionUpdate(ps[i := c], j, p);
    TotalsUpdate(ps, i, c);
    TotalsUpdate(ps[i := c], j, p);
    SameUnion(Union(ps), Union(ps[i := c]), Union(ps[i := c][j := p]), multiset(ps[i].items), multiset(ps[j].items),
              multiset(c.items), multiset(p.items));
  }

  lemma SameUnion(u: multiset<Fiber>, u1: multiset<Fiber>, u2: multiset<Fiber>, a: multiset<Fiber>, b: multiset<Fiber>,
                  c: multiset<Fiber>, p: multiset<Fiber>)
    requires u1 + a == u + c && u2 + b == u1 + p && c + p == a + b
    ensures u2 == u
  {
    forall f ensures u2[f] == u[f] {
      assert (u1 + a)[f] == (u + c)[f] && (u2 + b)[f] == (u1 + p)[f] && (c + p)[f] == (a + b)[f];
    }
  }

  lemma SectionKeepsInv(b: Books, s: Section)
    requires Inv(b) && Enabled(b, s)
    ensures Inv(Do(b, s))
  {
    hide Inv, Do, Enabled;
    match s
    case NewPool(size, fibers) => NewPoolKeeps(b, size, fibers);
    case Take(i) => TakeKeeps(b, i);
    case Give(i, f) => GiveKeeps(b, i, f);
    case Batch(i, keep, back) => BatchKeeps(b, i, keep, back);
    case Move(i, j, keep) => MoveKeeps(b, i, j, keep);
    case FromHeap(f) => FromHeapKeeps(b, f);
    case _ => CountKeeps(b, s);
  }

  ghost predicate Follows(b: Books, b': Books) {
    exists s :: Enabled(b, s) && b' == Do(b, s)
  }

  /** Any interleaving of the locked sections of any number of workers, from no pools at all. */
  ghost predicate Run(run: seq<Books>) {
    && |run| > 0 && run[0] == Books([], multiset{}, multiset{}, 0, 0)
    && forall i :: 0 < i < |run| ==> Follows(run[i - 1], run[i])
  }

  lemma {:induction false} RunKeepsInv(run: seq<Books>)
    requires Run(run)
    ensures Inv(run[|run| - 1])
    decreases |run|
  {
    if |run| > 1 {
      var init := run[..|run| - 1];
      assert Run(init) by {
        forall i | 0 < i < |init| ensures Follows(init[i - 1], init[i]) {
          assert Follows(run[i - 1], run[i]);
        }
      }
      RunKeepsInv(init);
      var b := run[|run| - 2];
      assert Follows(b, run[|run| - 1]);
      var s :| Enabled(b, s) && run[|run| - 1] == Do(b, s);
      SectionKeepsInv(b, s);
    }
  }

  /** The largest total pool i has had since it was there. */
  ghost function MostEver(run: seq<Books>, i: nat): int {
    if run == [] || i >= |run[|run| - 1].pools| then 0
    else
      var total, before := run[|run| - 1].pools[i].total, MostEver(run[..|run| - 1], i);
      if total < before then before else total
  }

  lemma MostEverSoFar(run: seq<Books>, i: nat)
    requires |run| > 1 && i < |run[|run| - 1].pools|
    ensures var total, before := run[|run| - 1].pools[i].total, MostEver(run[..|run| - 1], i);
      MostEver(run, i) == if total < before then before else total
  {
  }

  lemma NeverYet(run: seq<Books>, i: nat)
    requires run != [] && i >= |run[|run| - 1].pools|
    ensures MostEver(run, i) == 0
  {
  }

  /** What a section does to the one pool it locks. */
  function Changed(v: View, s: Section): View {
    match s
    case Take(_) => if v.items != [] then Popped(v) else v
    case Give(_, f) => Pushed(v, f)
    case Up(_) => CountedUp(v)
    case Down(_) => CountedDown(v, 1)
    case Batch(_, keep, back) => Batched(v, keep, back)
    case _ => v
  }

  lemma OnlyThisPool(b: Books, s: Section)
    requires Enabled(b, s) && !s.NewPool? && !s.FromHeap? && !s.Move?
    ensures s.i < |b.pools| && Do(b, s).pools == b.pools[s.i := Changed(b.pools[s.i], s)]
  {
    hide Batched, CountedUp, CountedDown, Pushed, Popped;
  }

  lemma ChangedRaises(v: View, s: Section)
    requires v.Valid()
    ensures var v' := Changed(v, s); v'.highWater == if v.highWater < v'.total then v'.total else v.highWater
  {
  }

  lemma SectionRaises(b: Books, s: Section, i: nat)
    requires Inv(b) && Enabled(b, s) && i < |Do(b, s).pools|
    ensures var v' := Do(b, s).pools[i];
      if i < |b.pools| then v'.highWater == (if b.pools[i].highWater < v'.total then v'.total else b.pools[i].highWater)
      else v'.highWater == 0 && v'.total == 0
  {
    hide Changed;
    FromInvAll(b);
    hide Inv;
    if !s.NewPool? && !s.FromHeap? && !s.Move? {
      OnlyThisPool(b, s);
      ChangedRaises(b.pools[s.i], s);
      hide Do, Enabled;
    } else {
      OthersRaise(b, s, i);
    }
  }

  lemma OthersRaise(b: Books, s: Section, i: nat)
    requires (forall j :: 0 <= j < |b.pools| ==> b.pools[j].Valid()) && Enabled(b, s) && i < |Do(b, s).pools|
    requires s.NewPool? || s.FromHeap? || s.Move?
    ensures var v' := Do(b, s).pools[i];
      if i < |b.pools| then v'.highWater == (if b.pools[i].highWater < v'.total then v'.total else b.pools[i].highWater)
      else v'.highWater == 0 && v'.total == 0
  {
    hide MovedToParent;
    if s.Move? {
      MoveRaises(b.pools[s.i], b.pools[s.j], s.keep);
    }
  }

  lemma MoveRaises(child: View, parent: View, keep: nat)
    requires child.Valid() && parent.Valid()
    ensures var (c, p) := MovedToParent(child, parent, keep);
      && c.highWater == child.highWater && p.highWater == parent.highWater && c.total <= c.highWater && p.total <= p.highWater
  {
    MovedIs(child, parent, keep);
    hide Moved, TopDown;
  }

  lemma FromInvAll(b: Books)
    requires Inv(b)
    ensures forall i :: 0 <= i < |b.pools| ==> b.pools[i].Valid()
  {
  }

  /** Over any run a pool's high-water mark is the largest total it ever had. */
  lemma {:induction false} HighWaterIsMostEver(run: seq<Books>, i: nat)
    requires Run(run) && i < |run[|run| - 1].pools|
    ensures run[|run| - 1].pools[i].highWater == MostEver(run, i)
    decreases |run|
  {
    if |run| > 1 {
      var init := run[..|run| - 1];
      assert Run(init) by {
        forall j | 0 < j < |init| ensures Follows(init[j - 1], init[j]) {
          assert Follows(run[j - 1], run[j]);
        }
      }
      var b := run[|run| - 2];
      assert Follows(b, run[|run| - 1]);
      var s :| Enabled(b, s) && run[|run| - 1] == Do(b, s);
      RunKeepsInv(init);
      hide Inv, Do, Enabled, Run, Follows;
      SectionRaises(b, s, i);
      MostEverSoFar(run, i);
      if i < |b.pools| {
        HighWaterIsMostEver(init, i);
      } else {
        NeverYet(init, i);
      }
      hide MostEver;
    }
  }

  /** Every section continues a run. */
  lemma RunsGoOn(run: seq<Books>, s: Section)
    requires Run(run) && Enabled(run[|run| - 1], s)
    ensures Run(run + [Do(run[|run| - 1], s)])
  {
    var longer := run + [Do(run[|run| - 1], s)];
    forall i | 0 < i < |longer| ensures Follows(longer[i - 1], longer[i]) {
      if i < |run| {
        assert Follows(run[i - 1], run[i]);
      }
    }
  }

  /** Whatever other workers did before, a section can run as soon as its own caller's conditions hold. */
  lemma SectionsInterleave(run: seq<Books>, i: nat, j: nat, keep: nat, f: Fiber)
    requires Run(run) && i < |run[|run| - 1].pools| && j < |run[|run| - 1].pools|
    ensures var b := run[|run| - 1];
      && (Enabled(b, Take(i)) <==> b.pools[i].items != []) && Enabled(b, Up(i))
      && (b.pending > 0 ==> Enabled(b, Down(i)) && (f !in b.live ==> Enabled(b, FromHeap(f))))
      && (f in b.out ==>
            && (|b.pools[i].items| < b.pools[i].max ==> Enabled(b, Give(i, f)))
            && (keep < b.pools[i].max ==> Enabled(b, Batch(i, keep, Some(f)))))
      && Enabled(b, Batch(i, keep, None)) && (i != j ==> Enabled(b, Move(i, j, keep)))
  {
  }

  /** Whenever no lock is held: the fibers in the pools and in use are as many as came with the pools plus what the
      totals add up to, less those the heap has not delivered yet; and no fiber is in two places. */
  lemma FibersConserved(run: seq<Books>, f: Fiber)
    requires Run(run)
    ensures var b := run[|run| - 1];
      && Sizes(b.pools) + |b.out| == b.prealloc + Totals(b.pools) - b.pending
      && Union(b.pools)[f] + b.out[f] <= 1
  {
    RunKeepsInv(run);
    var b := run[|run| - 1];
    UnionSize(b.pools);
    assert |Union(b.pools) + b.out| == |Union(b.pools)| + |b.out|;
    assert (Union(b.pools) + b.out)[f] == b.live[f];
  }

  /** Every pool keeps within its buffer, and its total within its high-water mark. */
  lemma PoolsKeepBounds(run: seq<Books>, i: nat)
    requires Run(run) && i < |run[|run| - 1].pools|
    ensures var v := run[|run| - 1].pools[i]; |v.items| <= v.max && v.total <= v.highWater && 0 <= v.highWater
  {
    RunKeepsInv(run);
  }
}
