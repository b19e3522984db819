/**
 Range splitting of cilk_for (cilk-abi-cilk-for.cpp).  A loop over [0, count) is cut into pieces, each handed to
 the loop body by one strand; which strand runs when is the scheduler's business, which index belongs to which
 piece is decided here.
 */
module CilkFor {

  /** The body is called with (data, low, high). */
  datatype Piece = Piece(low: nat, high: nat)

  /** Largest grain size the runtime computes. */
  const CAP: nat := 2048

  /** The trip count is an unsigned integer of 32 or 64 bits. */
  predicate Width(modulus: nat) {
    modulus == 0x1_0000_0000 || modulus == 0x1_0000_0000_0000_0000
  }

  /** The number of workers: P * 8 is a positive int. */
  predicate Workers(p: nat) {
    1 <= p && p * 8 < 0x8000_0000
  }

  /** Division of unsigned integers. */
  function Quot(x: nat, d: nat): nat
    requires d >= 1
  {
    x / d
  }

  /** The sum count + Px8 - 1 as the trip count's type computes it. */
  function RoundUp(modulus: nat, count: nat, p: nat): (sum: nat)
    requires Width(modulus) && count < modulus && Workers(p)
  {
    if count + p * 8 - 1 < modulus then count + p * 8 - 1 else count + p * 8 - 1 - modulus
  }

  function GrainSize(modulus: nat, req: int, count: nat, p: nat, underPtool: bool): (grain: nat)
    requires Width(modulus) && count < modulus && Workers(p)
  {
    if req > 0 then req
    else if count < 1 then 1
    else if underPtool then 1
    else
      var n := Quot(RoundUp(modulus, count, p), p * 8);
      if n > CAP then CAP else n
  }

  /** The caller left the grain size to the runtime, and the runtime's sum leaves the range of the count's type. */
  predicate Wraps(modulus: nat, req: int, count: nat, p: nat, underPtool: bool) {
    req <= 0 && count >= 1 && !underPtool && count + p * 8 - 1 >= modulus
  }

  /** "grain >= 1" is promised to the recursion; it holds exactly if the sum does not wrap.  Where it does, the
      grain size is not just too small but zero. */
  lemma GrainIsPositive(modulus: nat, req: int, count: nat, p: nat, underPtool: bool)
    requires Width(modulus) && count < modulus && Workers(p)
    ensures GrainSize(modulus, req, count, p, underPtool) >= 1 <==> !Wraps(modulus, req, count, p, underPtool)
  {
    var sum := RoundUp(modulus, count, p);
    QuotientIsZero(sum, p * 8);
  }

  lemma QuotientIsZero(sum: nat, d: nat)
    requires d > 0
    ensures Quot(sum, d) >= 1 <==> sum >= d
  {
    assert sum == d * (sum / d) + sum % d;
    if sum >= d && sum / d == 0 {
      assert false;
    }
  }

  /** The grain size is the least that leaves each worker at most eight grains' worth of work, but no more than
      the cap. */
  lemma EightGrainsEach(modulus: nat, req: int, count: nat, p: nat)
    requires Width(modulus) && 1 <= count < modulus && Workers(p) && req <= 0 && count + p * 8 - 1 < modulus
    ensures var grain := GrainSize(modulus, req, count, p, false);
      && 1 <= grain <= CAP
      && (grain - 1) * (p * 8) < count
      && (if count <= 2048 * (p * 8) then count <= grain * (p * 8) else grain == 2048)
  {
    var sum, d := count + p * 8 - 1, p * 8;
    var n := Quot(sum, d);
    GrainIsPositive(modulus, req, count, p, false);
    assert RoundUp(modulus, count, p) == sum;
    RoundedUp(count, d, n);
    if n > CAP {
      Scale(CAP, n - 1, d);
    } else {
      Scale(n, CAP, d);
    }
  }

  lemma RoundedUp(count: nat, d: nat, n: nat)
    requires d >= 1 && n == Quot(count + d - 1, d)
    ensures count <= n * d < count + d && (n - 1) * d < count
  {
    var sum := count + d - 1;
    assert sum == d * n + sum % d;
    assert (n - 1) * d == n * d - d;
  }

  lemma Scale(a: int, b: int, d: nat)
    requires a <= b
    ensures a * d <= b * d
  {
    assert b * d - a * d == (b - a) * d;
  }

  // ---------------------------------------------------------------- the recursion

  function Mid(low: nat, high: nat): (mid: nat)
    requires low <= high
    ensures low <= mid <= high && mid - low <= high - mid <= mid - low + 1
  {
    low + (high - low) / 2
  }

  /** The pieces, from left to right, if the grain size is positive. */
  function Pieces(low: nat, high: nat, grain: nat): seq<Piece>
    requires low <= high && grain >= 1
    decreases high - low
  {
    if high - low > grain then Pieces(low, Mid(low, high), grain) + Pieces(Mid(low, high), high, grain)
    else [Piece(low, high)]
  }

  /** The spawned call works on the left half; the loop goes on with the right one. */
  method CilkForRecursive(low: nat, high: nat, grain: nat) returns (calls: seq<Piece>)
    requires low <= high && grain >= 1
    ensures calls == Pieces(low, high, grain)
    decreases high - low
  {
    calls := [];
    var from := low;
    while high - from > grain
      invariant low <= from <= high
      invariant calls + Pieces(from, high, grain) == Pieces(low, high, grain)
      decreases high - from
    {
      var mid := Mid(from, high);
      var spawned := CilkForRecursive(from, mid, grain);
      assert calls + (spawned + Pieces(mid, high, grain)) == (calls + spawned) + Pieces(mid, high, grain);
      calls := calls + spawned;
      from := mid;
    }
    calls := calls + [Piece(from, high)];
  }

  /** Contiguous, non-empty, and from low to high. */
  ghost predicate Tiles(ps: seq<Piece>, low: nat, high: nat) {
    && ps != [] && ps[0].low == low && ps[|ps| - 1].high == high
    && (forall i :: 0 <= i < |ps| ==> ps[i].low < ps[i].high)
    && (forall i :: 0 < i < |ps| ==> ps[i - 1].high == ps[i].low)
  }

  ghost predicate Sized(ps: seq<Piece>, least: nat, most: nat) {
    forall i :: 0 <= i < |ps| ==> least <= ps[i].high - ps[i].low <= most
  }

  /** The pieces tile the range; none is larger than the grain size, and none smaller than half of it, unless the
      whole range was. */
  lemma {:induction false} PiecesTile(low: nat, high: nat, grain: nat)
    requires low < high && grain >= 1
    ensures Tiles(Pieces(low, high, grain), low, high)
    ensures Sized(Pieces(low, high, grain), if high - low <= grain then high - low else (grain + 1) / 2, grain)
    decreases high - low
  {
    if high - low > grain {
      var mid := Mid(low, high);
      PiecesTile(low, mid, grain);
      PiecesTile(mid, high, grain);
      var left, right := Pieces(low, mid, grain), Pieces(mid, high, grain);
      assert Pieces(low, high, grain) == left + right;
      hide Tiles, Sized, Pieces;
      TilesJoin(left, right, low, mid, high);
      SizedJoin(left, right, (grain + 1) / 2, grain);
    }
  }

  lemma TilesJoin(left: seq<Piece>, right: seq<Piece>, low: nat, mid: nat, high: nat)
    requires Tiles(left, low, mid) && Tiles(right, mid, high)
    ensures Tiles(left + right, low, high)
  {
    var ps := left + right;
    forall i | 0 < i < |ps| ensures ps[i - 1].high == ps[i].low {
      if i > |left| {
        assert ps[i - 1] == right[i - 1 - |left|] && ps[i] == right[i - |left|];
      }
    }
  }

  lemma SizedJoin(left: seq<Piece>, right: seq<Piece>, least: nat, most: nat)
    requires Sized(left, least, most) && Sized(right, least, most)
    ensures Sized(left + right, least, most)
  {
  }

  predicate Holds(p: Piece, i: nat) {
    p.low <= i < p.high
  }

  predicate InSome(ps: seq<Piece>, i: nat) {
    exists k :: 0 <= k < |ps| && Holds(ps[k], i)
  }

  /** Tiling means: every index of the range is in one piece and in one only, and no other index is in any. */
  lemma {:induction false} TilesOnce(ps: seq<Piece>, low: nat, high: nat, i: nat)
    requires Tiles(ps, low, high)
    ensures low < high
    ensures InSome(ps, i) <==> low <= i < high
    ensures forall k, l :: 0 <= k < l < |ps| && Holds(ps[k], i) ==> !Holds(ps[l], i)
    decreases |ps|
  {
    if |ps| > 1 {
      var rest := ps[1..];
      assert Tiles(rest, ps[0].high, high);
      TilesOnce(rest, ps[0].high, high, i);
      assert forall k :: 0 < k < |ps| ==> ps[k] == rest[k - 1];
      assert Holds(ps[0], i) <==> low <= i < ps[0].high;
      if k :| 0 <= k < |rest| && Holds(rest[k], i) {
        assert Holds(ps[k + 1], i);
      }
    } else {
      assert Holds(ps[0], i) <==> low <= i < high;
    }
  }

  /** Pieces of a least size cannot be too many, pieces of a greatest size not too few. */
  lemma {:induction false} TilesCount(ps: seq<Piece>, low: nat, high: nat, least: nat, most: nat)
    requires Tiles(ps, low, high) && Sized(ps, least, most)
    ensures |ps| * least <= high - low <= |ps| * most
    decreases |ps|
  {
    if |ps| > 1 {
      var rest := ps[1..];
      assert Tiles(rest, ps[0].high, high);
      TilesCount(rest, ps[0].high, high, least, most);
      OneMore(|rest|, least);
      OneMore(|rest|, most);
    } else {
      OneMore(0, least);
      OneMore(0, most);
    }
  }

  lemma OneMore(n: nat, size: nat)
    ensures (n + 1) * size == n * size + size
  {
  }

  // ---------------------------------------------------------------- the whole loop

  /** cilk_for from the entry point on, for an acceptable grain size. */
  method CilkFor(modulus: nat, count: nat, req: int, p: nat, underPtool: bool) returns (calls: seq<Piece>)
    requires Width(modulus) && count < modulus && Workers(p) && !Wraps(modulus, req, count, p, underPtool)
    ensures count == 0 ==> calls == []
    ensures count > 0 ==> Tiles(calls, 0, count)
    ensures forall k :: 0 <= k < |calls| ==> calls[k].high - calls[k].low <= GrainSize(modulus, req, count, p, underPtool)
    ensures forall i: nat :: i < count <==> InSome(calls, i)
    ensures forall i: nat, k, l :: 0 <= k < l < |calls| && Holds(calls[k], i) ==> !Holds(calls[l], i)
    // the caller's grain size is kept to
    ensures count > 0 && req > 0 ==> Sized(calls, if count <= req then count else (req + 1) / 2, req)
    // and under a tool that looks for parallelism every iteration is a piece of its own
    ensures req <= 0 && underPtool ==> Sized(calls, 1, 1)
    ensures req <= 0 && !underPtool && count <= 2048 * (p * 8) ==> |calls| <= 16 * p
    ensures req <= 0 && !underPtool && count > 2048 * (p * 8) ==> |calls| * 1024 <= count <= |calls| * 2048
  {
    if count == 0 {
      return [];
    }
    var grain := GrainSize(modulus, req, count, p, underPtool);
    GrainIsPositive(modulus, req, count, p, underPtool);
    calls := CilkForRecursive(0, count, grain);
    PiecesTile(0, count, grain);
    forall i: nat ensures i < count <==> InSome(calls, i) {
      TilesOnce(calls, 0, count, i);
    }
    forall i: nat, k, l | 0 <= k < l < |calls| && Holds(calls[k], i) ensures !Holds(calls[l], i) {
      TilesOnce(calls, 0, count, i);
    }
    if req <= 0 && !underPtool {
      NotTooMany(modulus, req, count, p);
    }
  }

  /** With a grain size below the cap there are at most sixteen pieces a worker; at the cap, at least one for every
      2048 iterations and at most two. */
  lemma NotTooMany(modulus: nat, req: int, count: nat, p: nat)
    requires Width(modulus) && 1 <= count < modulus && Workers(p) && req <= 0 && count + p * 8 - 1 < modulus
    ensures var grain := GrainSize(modulus, req, count, p, false);
      && grain >= 1
      && (count <= CAP * (p * 8) ==> |Pieces(0, count, grain)| <= 16 * p)
      && (count > CAP * (p * 8) ==> |Pieces(0, count, grain)| * (CAP / 2) <= count <= |Pieces(0, count, grain)| * CAP)
  {
    hide Tiles, Sized, GrainSize;
    var grain := GrainSize(modulus, req, count, p, false);
    EightGrainsEach(modulus, req, count, p);
    PiecesTile(0, count, grain);
    var ps := Pieces(0, count, grain);
    var least := if count <= grain then count else (grain + 1) / 2;
    TilesCount(ps, 0, count, least, grain);
    hide Pieces;
    if count > CAP * (p * 8) {
      Scale(1, p * 8, CAP);
    } else if count > grain {
      HalfGrains(|ps|, grain, count, p);
    } else {
      OnePiece(count, grain);
    }
  }

  lemma OnePiece(count: nat, grain: nat)
    requires 1 <= count <= grain
    ensures |Pieces(0, count, grain)| == 1
  {
  }

  lemma HalfGrains(n: nat, grain: nat, count: nat, p: nat)
    requires n * ((grain + 1) / 2) <= count <= grain * (p * 8) && grain >= 1
    ensures n <= 16 * p
  {
    var half := (grain + 1) / 2;
    assert grain * (p * 8) <= (2 * half) * (p * 8) == (16 * p) * half by {
      Scale(grain, 2 * half, p * 8);
    }
    assert (16 * p + 1) * half == (16 * p) * half + half;
    if n > 16 * p {
      Scale(16 * p + 1, n, half);
    }
  }

  // ---------------------------------------------------------------- a grain size of zero

  /** The recursion as it stands, for any grain size: None if it is more than `depth` levels deep, counting each
      turn of the loop as one. */
  function Run(low: nat, high: nat, grain: nat, depth: nat): (r: Option<seq<Piece>>)
    requires low <= high
    decreases depth
  {
    if high - low <= grain then Some([Piece(low, high)])
    else if depth == 0 then None
    else
      var left, right := Run(low, Mid(low, high), grain, depth - 1), Run(Mid(low, high), high, grain, depth - 1);
      if left.Some? && right.Some? then Some(left.value + right.value) else None
  }

  datatype Option<T> = None | Some(value: T)

  lemma {:induction false} RunsToPieces(low: nat, high: nat, grain: nat, depth: nat)
    requires low <= high && grain >= 1 && depth >= high - low
    ensures Run(low, high, grain, depth) == Some(Pieces(low, high, grain))
    decreases depth
  {
    if high - low > grain {
      RunsToPieces(low, Mid(low, high), grain, depth - 1);
      RunsToPieces(Mid(low, high), high, grain, depth - 1);
    }
  }

  lemma {:induction false} NeverEnds(low: nat, high: nat, depth: nat)
    requires low < high
    ensures Run(low, high, 0, depth) == None
    decreases depth
  {
    if depth > 0 {
      NeverEnds(Mid(low, high), high, depth - 1);
    }
  }

  /** The loop ends at all exactly if the computation of its grain size does not wrap, and then with the pieces. */
  lemma LoopEnds(modulus: nat, req: int, count: nat, p: nat, underPtool: bool)
    requires Width(modulus) && 1 <= count < modulus && Workers(p)
    ensures var grain := GrainSize(modulus, req, count, p, underPtool);
      && ((exists depth :: Run(0, count, grain, depth).Some?) <==> !Wraps(modulus, req, count, p, underPtool))
      && (grain >= 1 ==> Run(0, count, grain, count) == Some(Pieces(0, count, grain)))
  {
    var grain := GrainSize(modulus, req, count, p, underPtool);
    GrainIsPositive(modulus, req, count, p, underPtool);
    if grain >= 1 {
      RunsToPieces(0, count, grain, count);
    } else {
      forall depth: nat ensures Run(0, count, grain, depth) == None {
        NeverEnds(0, count, depth);
      }
    }
  }

  /** One worker and a 32-bit loop seven iterations short of its range already do. */
  lemma SomeLoopNeverEnds(depth: nat)
    ensures GrainSize(0x1_0000_0000, 0, 0xFFFF_FFF9, 1, false) == 0
    ensures Run(0, 0xFFFF_FFF9, 0, depth) == None
  {
    NeverEnds(0, 0xFFFF_FFF9, depth);
  }
}
