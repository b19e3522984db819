/**
 The pools of suspended and resumable deques: growing vectors with removal by swapping with the last entry,
 and in every deque a pointer back to its worker and its slot (deque_pool.c).
 */
module DequePool {

  const ACTIVE: int := -1
  const INVALID: int := -2

  datatype Option<T> = None | Some(value: T)

  class Deque {
    var self: int
    var worker: Option<nat>
    var resumable: bool

    constructor (w: nat)
      ensures self == ACTIVE && worker == Some(w) && !resumable
    {
      self, worker, resumable := ACTIVE, Some(w), false;
    }
  }

  /** Swap entry k with the last one and drop it. */
  function Without<T>(s: seq<T>, k: int): seq<T>
    requires 0 <= k < |s|
  {
    s[k := s[|s| - 1]][..|s| - 1]
  }

  ghost predicate Distinct<T>(s: seq<T>) {
    forall i, j :: 0 <= i < j < |s| ==> s[i] != s[j]
  }

  /** Despite the swap, what is in the pool is what was there but the one entry. */
  lemma WithoutDeletes<T>(s: seq<T>, k: int)
    requires 0 <= k < |s| && Distinct(s)
    ensures Distinct(Without(s, k))
    ensures forall x :: x in Without(s, k) <==> x in s && x != s[k]
  {
    var t, n := Without(s, k), |s| - 1;
    forall x | x in s && x != s[k] ensures x in t {
      var i :| 0 <= i < |s| && s[i] == x;
      assert x == t[if i == n then k else i];
    }
  }

  /** One pool of one worker; a worker has one for suspended and one for resumable deques. */
  class Pool {
    const owner: nat
    const forResumable: bool
    var slots: array<Deque?>
    var size: nat
    var capacity: nat
    ghost var items: seq<Deque>

    /** The vector holds the items, and every one of them knows its slot, its worker and its kind. */
    ghost predicate Valid()
      reads this, Parts()
    {
      && capacity == slots.Length && 0 < capacity
      && size == |items| <= capacity
      && (forall i :: 0 <= i < size ==> slots[i] == items[i])
      && (forall i :: 0 <= i < size ==> items[i].self == i && items[i].worker == Some(owner) && items[i].resumable == forResumable)
    }

    /** What the pool is made of. */
    ghost function Parts(): set<object>
      reads this
    {
      {this, slots} + (set d | d in items)
    }

    ghost function Last(): Deque
      requires items != []
      reads this
    {
      items[|items| - 1]
    }

    constructor (w: nat, resumables: bool, ltqsize: nat)
      requires 0 < ltqsize
      ensures Valid() && owner == w && forResumable == resumables && items == [] && fresh(slots)
    {
      owner, forResumable := w, resumables;
      size, capacity, items := 0, ltqsize, [];
      slots := new Deque?[ltqsize](_ => null);
    }

    /** A larger array with the same entries. */
    method Resize(cap: nat)
      requires Valid() && size < cap
      modifies this`slots, this`capacity
      ensures Valid() && capacity == cap && fresh(slots)
    {
      var newArray := new Deque?[cap](_ => null);
      for i := 0 to size
        invariant slots == old(slots) && Valid()
        invariant forall k :: 0 <= k < i ==> newArray[k] == slots[k]
      {
        newArray[i] := slots[i];
      }
      newArray[size] := null;
      slots, capacity := newArray, cap;
    }

    /** Append a deque that is in no pool. */
    method Add(d: Deque)
      requires Valid() && d !in items && d.resumable == forResumable
      modifies this`slots, this`capacity, this`size, this`items, slots, d`self, d`worker
      ensures Valid() && items == old(items) + [d]
      ensures slots == old(slots) || fresh(slots)
    {
      if size == capacity {
        Resize(2 * capacity);
      }
      d.self := size;
      d.worker := Some(owner);
      slots[size] := d;
      size := size + 1;
      items := items + [d];
    }

    /** Take a deque out: the last one moves into its slot. */
    method Remove(d: Deque)
      requires Valid() && d in items
      modifies this`size, this`items, slots, d`self, d`worker, Last()`self
      ensures Valid() && d.self == INVALID && d.worker == None
      ensures 0 <= old(d.self) < |old(items)| && old(items)[old(d.self)] == d && items == Without(old(items), old(d.self))
    {
      ghost var k :| 0 <= k < |items| && items[k] == d;
      var last := size - 1;
      var mover: Deque := slots[last];
      slots[d.self] := slots[last];
      mover.self := d.self;
      slots[last] := null;
      size := size - 1;
      items := items[d.self := mover][..last];
      d.self := INVALID;
      d.worker := None;
    }
  }

  // ---------------------------------------------------------------- all pools of all workers

  /** The heap that the pools are made of. */
  ghost function Footprint(ps: seq<Pool>): set<object>
    reads ps
  {
    set p, o | p in ps && o in p.Parts() :: o
  }

  /** Every pool is valid, no two share anything, and no two are the same worker's of the same kind. */
  ghost predicate AllValid(ps: seq<Pool>)
    reads ps, Footprint(ps)
  {
    && (forall p :: p in ps ==> p.Valid())
    && (forall i, j :: 0 <= i < j < |ps| ==> ps[i] != ps[j] && ps[i].slots != ps[j].slots)
    && (forall i, j :: 0 <= i < j < |ps| ==> ps[i].owner != ps[j].owner || ps[i].forResumable != ps[j].forResumable)
  }

  /** No deque is in two slots or in two pools. */
  lemma NoDequeTwice(ps: seq<Pool>, i: nat, j: nat, k: nat, l: nat)
    requires AllValid(ps) && i < |ps| && j < |ps| && k < |ps[i].items| && l < |ps[j].items|
    requires ps[i].items[k] == ps[j].items[l]
    ensures i == j && k == l
  {
    assert ps[i].Valid() && ps[j].Valid();
  }

  lemma ItemsDistinct(p: Pool)
    requires p.Valid()
    ensures Distinct(p.items)
  {
  }

  /** deque_pool_add to one of many pools. */
  method AddTo(ps: seq<Pool>, i: nat, d: Deque)
    requires AllValid(ps) && i < |ps| && (forall j :: 0 <= j < |ps| ==> d !in ps[j].items) && d.resumable == ps[i].forResumable
    modifies ps[i], ps[i].slots, d
    ensures AllValid(ps) && ps[i].items == old(ps[i].items) + [d] && d.resumable == old(d.resumable)
    ensures forall j :: 0 <= j < |ps| && j != i ==> ps[j].items == old(ps[j].items)
  {
    ps[i].Add(d);
    forall q | q in ps && q != ps[i] ensures q.Valid() {
      var j :| 0 <= j < |ps| && ps[j] == q;
      assert ps[j].slots == old(ps[j].slots);
    }
  }

  /** deque_pool_remove from one of many pools. */
  method RemoveFrom(ps: seq<Pool>, i: nat, d: Deque)
    requires AllValid(ps) && i < |ps| && d in ps[i].items
    modifies ps[i], ps[i].slots, d, ps[i].items
    ensures AllValid(ps) && d.self == INVALID && d.worker == None && d.resumable == old(d.resumable)
    ensures forall x :: x in ps[i].items <==> x in old(ps[i].items) && x != d
    ensures |ps[i].items| == |old(ps[i].items)| - 1
    ensures forall j :: 0 <= j < |ps| && j != i ==> ps[j].items == old(ps[j].items)
  {
    ItemsDistinct(ps[i]);
    ghost var k := d.self;
    ghost var was := ps[i].items;
    var p := ps[i];
    forall j, x | 0 <= j < |ps| && j != i && x in ps[j].items ensures x !in was {
      if x in was {
        var a :| 0 <= a < |ps[j].items| && ps[j].items[a] == x;
        var b :| 0 <= b < |was| && was[b] == x;
        NoDequeTwice(ps, j, i, a, b);
      }
    }
    p.Remove(d);
    WithoutDeletes(was, k);
    forall q | q in ps && q != ps[i] ensures q.Valid() {
      var j :| 0 <= j < |ps| && ps[j] == q;
      assert ps[j].slots == old(ps[j].slots);
    }
  }

  /** The locked section of make_resumable: from a worker's suspended pool to its resumable pool. */
  method MakeResumable(ps: seq<Pool>, i: nat, j: nat, d: Deque)
    requires AllValid(ps) && i < |ps| && j < |ps| && d in ps[i].items
    requires ps[i].owner == ps[j].owner && !ps[i].forResumable && ps[j].forResumable
    modifies ps[i], ps[i].slots, ps[i].items, ps[j], ps[j].slots, d
    ensures AllValid(ps) && d.resumable && d.worker == Some(ps[j].owner)
    ensures forall x :: x in ps[i].items <==> x in old(ps[i].items) && x != d
    ensures ps[j].items == old(ps[j].items) + [d]
    ensures forall k :: 0 <= k < |ps| && k != i && k != j ==> ps[k].items == old(ps[k].items)
  {
    ghost var a :| 0 <= a < |ps[i].items| && ps[i].items[a] == d;
    forall k | 0 <= k < |ps| && k != i ensures d !in ps[k].items {
      if d in ps[k].items {
        var b :| 0 <= b < |ps[k].items| && ps[k].items[b] == d;
        NoDequeTwice(ps, i, k, a, b);
      }
    }
    assert i != j;
    RemoveFrom(ps, i, d);
    forall k | 0 <= k < |ps| ensures d !in ps[k].items {
    }
    d.resumable := true;
    forall p | p in ps ensures p.Valid() && d !in p.items {
      var k :| 0 <= k < |ps| && ps[k] == p;
    }
    AddTo(ps, j, d);
    assert ps[j].Valid() && ps[j].items[|ps[j].items| - 1] == d;
  }
}
