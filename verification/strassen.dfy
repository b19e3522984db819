/**
 strassen_z of strassen.cpp: the sums, the seven recursive products, three of them in scratch space and
 four straight into the output's quadrants, and the final additions in place.
 */
module Strassen {
  import opened Morton
  import opened BlockLayout
  import opened Matrices
  import opened BaseCase
  import opened ZMultiply

  // ---------------------------------------------------------------- setup_add

  /** Where the eight sums, or the four quadrants of an operand, start. */
  type Offsets = seq<nat>

  /** Sum k of one cell of each quadrant, k counted from 0. */
  function SumAt(k: nat, a11: int, a12: int, a21: int, a22: int, b11: int, b12: int, b21: int, b22: int): int {
    if k == 0 then a21 + a22
    else if k == 1 then a21 + a22 - a11
    else if k == 2 then a11 - a21
    else if k == 3 then a12 - (a21 + a22 - a11)
    else if k == 4 then b12 - b11
    else if k == 5 then b22 - (b12 - b11)
    else if k == 6 then b22 - b12
    else b22 - (b12 - b11) - b21
  }

  /** Cell x of sum k, from the quadrants' contents. */
  function SumCell(k: nat, a: Quads, b: Quads, x: nat): int
    requires x < |a.q11| == |a.q12| == |a.q21| == |a.q22| == |b.q11| == |b.q12| == |b.q21| == |b.q22|
  {
    SumAt(k, a.q11[x], a.q12[x], a.q21[x], a.q22[x], b.q11[x], b.q12[x], b.q21[x], b.q22[x])
  }

  /** Stretches of len cells that do not overlap, in order. */
  predicate Apart(s: Offsets, len: nat, size: nat) {
    && (forall k :: 0 <= k < |s| ==> s[k] + len <= size)
    && (forall k, l :: 0 <= k < l < |s| ==> s[k] + len <= s[l])
  }

  predicate Eight(s: Offsets, len: nat, size: nat) {
    |s| == 8 && Apart(s, len, size)
  }

  predicate EvenQuads(q: Quads, len: nat) {
    |q.q11| == |q.q12| == |q.q21| == |q.q22| == len
  }

  /** y is one of cells lo..hi of one of the stretches. */
  predicate Among(s: Offsets, lo: nat, hi: nat, y: int) {
    exists k :: 0 <= k < |s| && s[k] + lo <= y < s[k] + hi
  }

  /** Cells lo..hi of all eight sums are in place, and nothing else changed. */
  ghost predicate Summed(now: seq<int>, was: seq<int>, s: Offsets, lo: nat, hi: nat, len: nat, a: Quads, b: Quads)
    requires EvenQuads(a, len) && EvenQuads(b, len) && hi <= len
  {
    && |now| == |was|
    && (forall k: nat, x: nat :: k < |s| && lo <= x < hi && s[k] + x < |now| ==> now[s[k] + x] == SumCell(k, a, b, x))
    && (forall y :: 0 <= y < |was| && !Among(s, lo, hi, y) ==> now[y] == was[y])
  }

  lemma SummedTwice(w0: seq<int>, w1: seq<int>, w2: seq<int>, s: Offsets, lo: nat, mid: nat, hi: nat, len: nat, a: Quads, b: Quads)
    requires EvenQuads(a, len) && EvenQuads(b, len) && lo <= mid <= hi <= len && Eight(s, len, |w0|)
    requires Summed(w1, w0, s, lo, mid, len, a, b) && Summed(w2, w1, s, mid, hi, len, a, b)
    ensures Summed(w2, w0, s, lo, hi, len, a, b)
  {
    hide SumCell;
    forall k: nat, x: nat | k < |s| && lo <= x < hi && s[k] + x < |w2| ensures w2[s[k] + x] == SumCell(k, a, b, x) {
      if x < mid {
        NotAmong(s, len, |w0|, mid, hi, k, x);
      }
    }
    forall y | 0 <= y < |w0| && !Among(s, lo, hi, y) ensures w2[y] == w0[y] {
      assert !Among(s, lo, mid, y) && !Among(s, mid, hi, y);
    }
  }

  lemma NotAmong(s: Offsets, len: nat, size: nat, lo: nat, hi: nat, k: nat, x: nat)
    requires Apart(s, len, size) && hi <= len && k < |s| && x < len && !(lo <= x < hi)
    ensures !Among(s, lo, hi, s[k] + x)
  {
  }

  /** The four quadrants are in place. */
  ghost predicate QuadsHeld(p: array<int>, at: Offsets, q: Quads)
    reads p
  {
    |at| == 4 && Holds(p, at[0], q.q11) && Holds(p, at[1], q.q12) && Holds(p, at[2], q.q21) && Holds(p, at[3], q.q22)
  }

  /** One cell of each of the eight sums: the body of the unrolled loop, one lane. */
  method SumOne(T: array<int>, s: Offsets, A: array<int>, at: Offsets, B: array<int>, bt: Offsets, x: nat, ghost len: nat,
                ghost a: Quads, ghost b: Quads)
    requires Eight(s, len, T.Length) && T != A && T != B && EvenQuads(a, len) && EvenQuads(b, len) && x < len
    requires QuadsHeld(A, at, a) && QuadsHeld(B, bt, b)
    modifies T
    ensures Summed(T[..], old(T[..]), s, x, x + 1, len, a, b)
  {
    InOrder8(s, len, T.Length, x);
    hide Eight, Among;
    ghost var was := T[..];
    var a11, a12, a21, a22 := A[at[0] + x], A[at[1] + x], A[at[2] + x], A[at[3] + x];
    var b11, b12, b21, b22 := B[bt[0] + x], B[bt[1] + x], B[bt[2] + x], B[bt[3] + x];
    T[s[0] + x] := a21 + a22;
    var s1 := T[s[0] + x];
    T[s[1] + x] := s1 - a11;
    var s2 := T[s[1] + x];
    T[s[3] + x] := a12 - s2;
    T[s[2] + x] := a11 - a21;
    T[s[4] + x] := b12 - b11;
    var s5 := T[s[4] + x];
    T[s[5] + x] := b22 - s5;
    var s6 := T[s[5] + x];
    T[s[6] + x] := b22 - b12;
    T[s[7] + x] := s6 - b21;
    EightCells(T[..], was, s, x, len, a, b);
  }

  lemma InOrder8(s: Offsets, len: nat, size: nat, x: nat)
    requires Eight(s, len, size) && x < len
    ensures |s| == 8 && s[0] + x < s[1] + x < s[2] + x < s[3] + x < s[4] + x < s[5] + x < s[6] + x < s[7] + x < size
  {
  }

  lemma EightCells(now: seq<int>, was: seq<int>, s: Offsets, x: nat, len: nat, a: Quads, b: Quads)
    requires Eight(s, len, |now|) && EvenQuads(a, len) && EvenQuads(b, len) && x < len && |now| == |was|
    requires now[s[0] + x] == SumCell(0, a, b, x) && now[s[1] + x] == SumCell(1, a, b, x)
    requires now[s[2] + x] == SumCell(2, a, b, x) && now[s[3] + x] == SumCell(3, a, b, x)
    requires now[s[4] + x] == SumCell(4, a, b, x) && now[s[5] + x] == SumCell(5, a, b, x)
    requires now[s[6] + x] == SumCell(6, a, b, x) && now[s[7] + x] == SumCell(7, a, b, x)
    requires forall y :: (0 <= y < |now| && y != s[0] + x && y != s[1] + x && y != s[2] + x && y != s[3] + x
                          && y != s[4] + x && y != s[5] + x && y != s[6] + x && y != s[7] + x) ==> now[y] == was[y]
    ensures Summed(now, was, s, x, x + 1, len, a, b)
  {
    hide SumCell;
    forall k: nat, x': nat | k < |s| && x <= x' < x + 1 && s[k] + x' < |now| ensures now[s[k] + x'] == SumCell(k, a, b, x') {
      assert k == 0 || k == 1 || k == 2 || k == 3 || k == 4 || k == 5 || k == 6 || k == 7;
    }
    forall y | 0 <= y < |was| && !Among(s, x, x + 1, y) ensures now[y] == was[y] {
      assert forall k :: 0 <= k < 8 ==> y != s[k] + x;
    }
  }

  lemma NothingSummed(was: seq<int>, s: Offsets, lo: nat, len: nat, a: Quads, b: Quads)
    requires EvenQuads(a, len) && EvenQuads(b, len) && lo <= len
    ensures Summed(was, was, s, lo, lo, len, a, b)
  {
  }

  /** The base case: n rows of n cells, eight at a time.  All sixteen pointers move together, `lo` to lo + n * n
      cells beyond where they started. */
  method SetupBlock(T: array<int>, s: Offsets, A: array<int>, at: Offsets, B: array<int>, bt: Offsets, lo: nat, n: nat, ghost len: nat,
                    ghost a: Quads, ghost b: Quads)
    requires Eight(s, len, T.Length) && T != A && T != B && EvenQuads(a, len) && EvenQuads(b, len)
    requires n % 8 == 0 && lo + n * n <= len && QuadsHeld(A, at, a) && QuadsHeld(B, bt, b)
    modifies T
    ensures Summed(T[..], old(T[..]), s, lo, lo + n * n, len, a, b)
  {
    hide Summed, Eight, QuadsHeld, EvenQuads;
    ghost var was := T[..];
    var w := lo;
    ghost var rows := 0;
    NothingSummed(was, s, lo, len, a, b);
    for i := 0 to n
      invariant rows == i * n && w == lo + rows && QuadsHeld(A, at, a) && QuadsHeld(B, bt, b)
      invariant Summed(T[..], was, s, lo, w, len, a, b)
    {
      Inside(i, 0, n);
      w := SetupRow(T, s, A, at, B, bt, w, n, len, a, b, was, lo);
      NextRow(i + 1, n);
      rows := rows + n;
    }
  }

  method SetupRow(T: array<int>, s: Offsets, A: array<int>, at: Offsets, B: array<int>, bt: Offsets, w_: nat, n: nat, ghost len: nat,
                  ghost a: Quads, ghost b: Quads, ghost was: seq<int>, ghost lo: nat)
    returns (w: nat)
    requires Eight(s, len, T.Length) && T != A && T != B && EvenQuads(a, len) && EvenQuads(b, len)
    requires n % 8 == 0 && lo <= w_ && w_ + n <= len && QuadsHeld(A, at, a) && QuadsHeld(B, bt, b)
    requires Summed(T[..], was, s, lo, w_, len, a, b)
    modifies T
    ensures w == w_ + n && QuadsHeld(A, at, a) && QuadsHeld(B, bt, b) && Summed(T[..], was, s, lo, w, len, a, b)
  {
    hide Summed, Eight, QuadsHeld, EvenQuads;
    w := w_;
    var j := 0;
    while j < n
      invariant 0 <= j <= n && j % 8 == 0 && w == w_ + j && QuadsHeld(A, at, a) && QuadsHeld(B, bt, b)
      invariant Summed(T[..], was, s, lo, w, len, a, b)
    {
      EightLanes(T, s, A, at, B, bt, w, len, a, b, was, lo);
      w := w + 8;
      j := j + 8;
    }
  }

  method EightLanes(T: array<int>, s: Offsets, A: array<int>, at: Offsets, B: array<int>, bt: Offsets, w: nat, ghost len: nat,
                    ghost a: Quads, ghost b: Quads, ghost was: seq<int>, ghost lo: nat)
    requires Eight(s, len, T.Length) && T != A && T != B && EvenQuads(a, len) && EvenQuads(b, len)
    requires lo <= w && w + 8 <= len && QuadsHeld(A, at, a) && QuadsHeld(B, bt, b)
    requires Summed(T[..], was, s, lo, w, len, a, b)
    modifies T
    ensures QuadsHeld(A, at, a) && QuadsHeld(B, bt, b)
    ensures Summed(T[..], was, s, lo, w + 8, len, a, b)
  {
    hide Eight, EvenQuads;
    for lane := 0 to 8
      invariant QuadsHeld(A, at, a) && QuadsHeld(B, bt, b)
      invariant Summed(T[..], was, s, lo, w + lane, len, a, b)
    {
      ghost var now := T[..];
      SumOne(T, s, A, at, B, bt, w + lane, len, a, b);
      SummedTwice(was, now, T[..], s, lo, w + lane, w + lane + 1, len, a, b);
    }
  }

  /** All eight sums, by quadrants. */
  method SetupAdd(T: array<int>, s: Offsets, A: array<int>, at: Offsets, B: array<int>, bt: Offsets, lo: nat, n: nat, power: nat,
                  ghost len: nat, ghost a: Quads, ghost b: Quads)
    requires Eight(s, len, T.Length) && T != A && T != B && EvenQuads(a, len) && EvenQuads(b, len)
    requires power >= 3 && Size(power, n) && n <= MAX_N && lo + n * n <= len && QuadsHeld(A, at, a) && QuadsHeld(B, bt, b)
    modifies T
    ensures Summed(T[..], old(T[..]), s, lo, lo + n * n, len, a, b)
    decreases n
  {
    hide Summed, Eight, EvenQuads, Size, Pow2, Corner;
    if n == Pow2(power) {
      MultipleOfEight(power);
      SetupBlock(T, s, A, at, B, bt, lo, n, len, a, b);
    } else {
      AboveABlock(power, n);
      LargeHalf(power, n);
      Corners(power, n);
      ghost var w0, mm := T[..], n / 2 * (n / 2);
      SetupAdd(T, s, A, at, B, bt, lo + Corner(power, n, 0, 0), n / 2, power, len, a, b);
      ghost var w1 := T[..];
      SetupAdd(T, s, A, at, B, bt, lo + Corner(power, n, 0, 1), n / 2, power, len, a, b);
      ghost var w2 := T[..];
      SummedTwice(w0, w1, w2, s, lo, lo + mm, lo + 2 * mm, len, a, b);
      SetupAdd(T, s, A, at, B, bt, lo + Corner(power, n, 1, 0), n / 2, power, len, a, b);
      ghost var w3 := T[..];
      SummedTwice(w0, w2, w3, s, lo, lo + 2 * mm, lo + 3 * mm, len, a, b);
      SetupAdd(T, s, A, at, B, bt, lo + Corner(power, n, 1, 1), n / 2, power, len, a, b);
      SummedTwice(w0, w3, T[..], s, lo, lo + 3 * mm, lo + 4 * mm, len, a, b);
    }
  }

  lemma Corners(power: nat, n: nat)
    requires Large(power, n) && n <= MAX_N
    ensures var mm := n / 2 * (n / 2);
      && Corner(power, n, 0, 0) == 0 && Corner(power, n, 0, 1) == mm
      && Corner(power, n, 1, 0) == 2 * mm && Corner(power, n, 1, 1) == 3 * mm
  {
    hide Corner;
    CornerIsQuarter(power, n, 0, 0);
    CornerIsQuarter(power, n, 0, 1);
    CornerIsQuarter(power, n, 1, 0);
    CornerIsQuarter(power, n, 1, 1);
  }

  // ---------------------------------------------------------------- final_add

  /** Cells lo..hi of the four quadrants are recombined with the three products in scratch space; nothing
      else changed. */
  ghost predicate Combined(now: seq<int>, was: seq<int>, c: Offsets, lo: nat, hi: nat, len: nat, p1: seq<int>, p5: seq<int>, p6: seq<int>)
    requires |p1| == |p5| == |p6| == len && hi <= len && |c| == 4 && Apart(c, len, |was|)
  {
    && |now| == |was|
    && (forall x :: lo <= x < hi ==>
          (now[c[0] + x], now[c[1] + x], now[c[2] + x], now[c[3] + x])
          == Recombined(p1[x], was[c[0] + x], was[c[1] + x], was[c[2] + x], p5[x], p6[x], was[c[3] + x]))
    && (forall y :: 0 <= y < |was| && !Among(c, lo, hi, y) ==> now[y] == was[y])
  }

  lemma CombinedTwice(w0: seq<int>, w1: seq<int>, w2: seq<int>, c: Offsets, lo: nat, mid: nat, hi: nat, len: nat,
                      p1: seq<int>, p5: seq<int>, p6: seq<int>)
    requires |p1| == |p5| == |p6| == len && lo <= mid <= hi <= len && |c| == 4 && Apart(c, len, |w0|) && |w1| == |w0|
    requires Combined(w1, w0, c, lo, mid, len, p1, p5, p6) && Combined(w2, w1, c, mid, hi, len, p1, p5, p6)
    ensures Combined(w2, w0, c, lo, hi, len, p1, p5, p6)
  {
    hide Recombined, Among, Apart;
    forall x | lo <= x < hi
      ensures c[3] + x < |w0| && c[0] + x < |w0| && c[1] + x < |w0| && c[2] + x < |w0|
      ensures (w2[c[0] + x], w2[c[1] + x], w2[c[2] + x], w2[c[3] + x])
           == Recombined(p1[x], w0[c[0] + x], w0[c[1] + x], w0[c[2] + x], p5[x], p6[x], w0[c[3] + x]) {
      InFour(c, len, |w0|, x);
      if x < mid {
        FourNotAmong(c, len, |w0|, mid, hi, x);
      } else {
        FourNotAmong(c, len, |w0|, lo, mid, x);
      }
    }
    forall y | 0 <= y < |w0| && !Among(c, lo, hi, y) ensures w2[y] == w0[y] {
      AmongLess(c, lo, mid, lo, hi, y);
      AmongLess(c, mid, hi, lo, hi, y);
    }
  }

  lemma AmongLess(s: Offsets, lo: nat, hi: nat, lo': nat, hi': nat, y: int)
    requires !Among(s, lo', hi', y) && lo' <= lo && hi <= hi'
    ensures !Among(s, lo, hi, y)
  {
  }

  lemma InFour(c: Offsets, len: nat, size: nat, x: nat)
    requires |c| == 4 && Apart(c, len, size) && x < len
    ensures c[0] + x < c[1] + x < c[2] + x < c[3] + x < size
  {
  }

  lemma FourNotAmong(c: Offsets, len: nat, size: nat, lo: nat, hi: nat, x: nat)
    requires |c| == 4 && Apart(c, len, size) && hi <= len && x < len && !(lo <= x < hi)
    ensures !Among(c, lo, hi, c[0] + x) && !Among(c, lo, hi, c[1] + x) && !Among(c, lo, hi, c[2] + x) && !Among(c, lo, hi, c[3] + x)
  {
    NotAmong(c, len, size, lo, hi, 0, x);
    NotAmong(c, len, size, lo, hi, 1, x);
    NotAmong(c, len, size, lo, hi, 2, x);
    NotAmong(c, len, size, lo, hi, 3, x);
  }

  /** M2, M5 and T1 are in place. */
  ghost predicate Scratch(T: array<int>, m: Offsets, p1: seq<int>, p5: seq<int>, p6: seq<int>)
    reads T
  {
    |m| == 3 && Holds(T, m[0], p1) && Holds(T, m[1], p5) && Holds(T, m[2], p6)
  }

  /** One cell of each quadrant: the body of the unrolled loop, one lane. */
  method FinalOne(C: array<int>, c: Offsets, T: array<int>, m: Offsets, x: nat, ghost len: nat,
                  ghost p1: seq<int>, ghost p5: seq<int>, ghost p6: seq<int>)
    requires |p1| == |p5| == |p6| == len && |c| == 4 && Apart(c, len, C.Length) && C != T && x < len
    requires Scratch(T, m, p1, p5, p6)
    modifies C
    ensures Combined(C[..], old(C[..]), c, x, x + 1, len, p1, p5, p6)
  {
    InFour(c, len, C.Length, x);
    hide Apart, Among;
    ghost var was := C[..];
    var m2, m5, t1 := T[m[0] + x], T[m[1] + x], T[m[2] + x];
    C[c[0] + x] := C[c[0] + x] + m2;
    C[c[1] + x] := C[c[1] + x] + (m5 + t1 + m2);
    var c22 := C[c[3] + x];
    c22 := c22 + (m2 + t1);
    C[c[2] + x] := c22 - C[c[2] + x];
    C[c[3] + x] := c22 + m5;
    FourCells(C[..], was, c, x, len, p1, p5, p6);
  }

  lemma FourCells(now: seq<int>, was: seq<int>, c: Offsets, x: nat, len: nat, p1: seq<int>, p5: seq<int>, p6: seq<int>)
    requires |p1| == |p5| == |p6| == len && |c| == 4 && Apart(c, len, |was|) && x < len && |now| == |was|
    requires (now[c[0] + x], now[c[1] + x], now[c[2] + x], now[c[3] + x])
          == Recombined(p1[x], was[c[0] + x], was[c[1] + x], was[c[2] + x], p5[x], p6[x], was[c[3] + x])
    requires forall y :: (0 <= y < |now| && y != c[0] + x && y != c[1] + x && y != c[2] + x && y != c[3] + x) ==> now[y] == was[y]
    ensures Combined(now, was, c, x, x + 1, len, p1, p5, p6)
  {
    hide Recombined;
    forall y | 0 <= y < |was| && !Among(c, x, x + 1, y) ensures now[y] == was[y] {
      assert forall k :: 0 <= k < 4 ==> y != c[k] + x;
    }
  }

  lemma NothingCombined(was: seq<int>, c: Offsets, lo: nat, len: nat, p1: seq<int>, p5: seq<int>, p6: seq<int>)
    requires |p1| == |p5| == |p6| == len && lo <= len && |c| == 4 && Apart(c, len, |was|)
    ensures Combined(was, was, c, lo, lo, len, p1, p5, p6)
  {
  }

  method FinalLanes(C: array<int>, c: Offsets, T: array<int>, m: Offsets, w: nat, ghost len: nat,
                    ghost p1: seq<int>, ghost p5: seq<int>, ghost p6: seq<int>, ghost was: seq<int>, ghost lo: nat)
    requires |p1| == |p5| == |p6| == len && |c| == 4 && Apart(c, len, C.Length) && C != T && |was| == C.Length
    requires lo <= w && w + 8 <= len && Scratch(T, m, p1, p5, p6)
    requires Combined(C[..], was, c, lo, w, len, p1, p5, p6)
    modifies C
    ensures Scratch(T, m, p1, p5, p6) && Combined(C[..], was, c, lo, w + 8, len, p1, p5, p6)
  {
    hide Apart, Combined;
    for lane := 0 to 8
      invariant Scratch(T, m, p1, p5, p6)
      invariant Combined(C[..], was, c, lo, w + lane, len, p1, p5, p6)
    {
      ghost var now := C[..];
      FinalOne(C, c, T, m, w + lane, len, p1, p5, p6);
      CombinedTwice(was, now, C[..], c, lo, w + lane, w + lane + 1, len, p1, p5, p6);
    }
  }

  method FinalBlock(C: array<int>, c: Offsets, T: array<int>, m: Offsets, lo: nat, n: nat, ghost len: nat,
                    ghost p1: seq<int>, ghost p5: seq<int>, ghost p6: seq<int>)
    requires |p1| == |p5| == |p6| == len && |c| == 4 && Apart(c, len, C.Length) && C != T
    requires n % 8 == 0 && lo + n * n <= len && Scratch(T, m, p1, p5, p6)
    modifies C
    ensures Combined(C[..], old(C[..]), c, lo, lo + n * n, len, p1, p5, p6)
  {
    hide Combined, Apart, Scratch;
    ghost var was := C[..];
    var w := lo;
    ghost var rows := 0;
    NothingCombined(was, c, lo, len, p1, p5, p6);
    for i := 0 to n
      invariant rows == i * n && w == lo + rows && Scratch(T, m, p1, p5, p6)
      invariant Combined(C[..], was, c, lo, w, len, p1, p5, p6)
    {
      Inside(i, 0, n);
      w := FinalRow(C, c, T, m, w, n, len, p1, p5, p6, was, lo);
      NextRow(i + 1, n);
      rows := rows + n;
    }
  }

  method FinalRow(C: array<int>, c: Offsets, T: array<int>, m: Offsets, w_: nat, n: nat, ghost len: nat,
                  ghost p1: seq<int>, ghost p5: seq<int>, ghost p6: seq<int>, ghost was: seq<int>, ghost lo: nat)
    returns (w: nat)
    requires |p1| == |p5| == |p6| == len && |c| == 4 && Apart(c, len, C.Length) && C != T && |was| == C.Length
    requires n % 8 == 0 && lo <= w_ && w_ + n <= len && Scratch(T, m, p1, p5, p6)
    requires Combined(C[..], was, c, lo, w_, len, p1, p5, p6)
    modifies C
    ensures w == w_ + n && Scratch(T, m, p1, p5, p6) && Combined(C[..], was, c, lo, w, len, p1, p5, p6)
  {
    hide Combined, Apart, Scratch;
    w := w_;
    var j := 0;
    while j < n
      invariant 0 <= j <= n && j % 8 == 0 && w == w_ + j && Scratch(T, m, p1, p5, p6)
      invariant Combined(C[..], was, c, lo, w, len, p1, p5, p6)
    {
      FinalLanes(C, c, T, m, w, len, p1, p5, p6, was, lo);
      w := w + 8;
      j := j + 8;
    }
  }

  /** The final additions, by quadrants. */
  method FinalAdd(C: array<int>, c: Offsets, T: array<int>, m: Offsets, lo: nat, n: nat, power: nat, ghost len: nat,
                  ghost p1: seq<int>, ghost p5: seq<int>, ghost p6: seq<int>)
    requires |p1| == |p5| == |p6| == len && |c| == 4 && Apart(c, len, C.Length) && C != T
    requires power >= 3 && Size(power, n) && n <= MAX_N && lo + n * n <= len && Scratch(T, m, p1, p5, p6)
    modifies C
    ensures Combined(C[..], old(C[..]), c, lo, lo + n * n, len, p1, p5, p6)
    decreases n
  {
    hide Combined, Apart, Size, Pow2, Corner;
    if n == Pow2(power) {
      MultipleOfEight(power);
      FinalBlock(C, c, T, m, lo, n, len, p1, p5, p6);
    } else {
      AboveABlock(power, n);
      LargeHalf(power, n);
      Corners(power, n);
      ghost var w0, mm := C[..], n / 2 * (n / 2);
      FinalAdd(C, c, T, m, lo + Corner(power, n, 0, 0), n / 2, power, len, p1, p5, p6);
      ghost var w1 := C[..];
      FinalAdd(C, c, T, m, lo + Corner(power, n, 0, 1), n / 2, power, len, p1, p5, p6);
      ghost var w2 := C[..];
      CombinedTwice(w0, w1, w2, c, lo, lo + mm, lo + 2 * mm, len, p1, p5, p6);
      FinalAdd(C, c, T, m, lo + Corner(power, n, 1, 0), n / 2, power, len, p1, p5, p6);
      ghost var w3 := C[..];
      CombinedTwice(w0, w2, w3, c, lo, lo + 2 * mm, lo + 3 * mm, len, p1, p5, p6);
      FinalAdd(C, c, T, m, lo + Corner(power, n, 1, 1), n / 2, power, len, p1, p5, p6);
      CombinedTwice(w0, w3, C[..], c, lo, lo + 3 * mm, lo + 4 * mm, len, p1, p5, p6);
    }
  }

  // ---------------------------------------------------------------- strassen_z

  /** s holds v at `at`. */
  ghost predicate HeldIn(s: seq<int>, at: nat, v: seq<int>) {
    at + |v| <= |s| && forall x :: 0 <= x < |v| ==> s[at + x] == v[x]
  }

  lemma HeldIsHolds(p: array<int>, at: nat, v: seq<int>)
    ensures HeldIn(p[..], at, v) <==> Holds(p, at, v)
  {
    if HeldIn(p[..], at, v) {
      forall x | 0 <= x < |v| ensures p[at + x] == v[x] {
        assert p[..][at + x] == v[x];
      }
    }
  }

  lemma KeepHeld(now: seq<int>, was: seq<int>, at: nat, s: seq<int>, from: nat, v: seq<int>)
    requires Wrote(now, was, at, s) && HeldIn(was, from, v) && (at + |s| <= from || from + |v| <= at)
    ensures HeldIn(now, from, v)
  {
  }

  lemma NewHeld(now: seq<int>, was: seq<int>, at: nat, s: seq<int>)
    requires Wrote(now, was, at, s)
    ensures HeldIn(now, at, s)
  {
  }

  /** Only cells from c on, len of them, changed. */
  ghost predicate OnlyIn(now: seq<int>, was: seq<int>, c: nat, len: nat) {
    |now| == |was| && forall x :: 0 <= x < |was| && !(c <= x < c + len) ==> now[x] == was[x]
  }

  /** The parts of an operand, and where Z_PARTITION says they are. */
  function Parts(power: nat, n: nat, at: nat): (o: Offsets)
    requires n <= MAX_N
    ensures |o| == 4
  {
    [at + Corner(power, n, 0, 0), at + Corner(power, n, 0, 1), at + Corner(power, n, 1, 0), at + Corner(power, n, 1, 1)]
  }

  ghost function QuadsOf(power: nat, n: nat, s: seq<int>): (q: Quads)
    requires Large(power, n) && |s| == n * n
    ensures n % 2 == 0 && q.Sized(power, n / 2) && EvenQuads(q, n / 2 * (n / 2))
  {
    LargeHalf(power, n);
    Quads(Quad(n, s, 0, 0), Quad(n, s, 0, 1), Quad(n, s, 1, 0), Quad(n, s, 1, 1))
  }

  lemma PartsHeld(p: array<int>, at: nat, power: nat, n: nat, s: seq<int>)
    requires Large(power, n) && n <= MAX_N && |s| == n * n && Holds(p, at, s)
    ensures QuadsHeld(p, Parts(power, n, at), QuadsOf(power, n, s))
  {
    hide Quad, Corner, Size, Pow2, Holds;
    LargeHalf(power, n);
    CornerIsQuarter(power, n, 0, 0);
    CornerIsQuarter(power, n, 0, 1);
    CornerIsQuarter(power, n, 1, 0);
    CornerIsQuarter(power, n, 1, 1);
    HoldsQuad(p, at, n, s, 0, 0);
    HoldsQuad(p, at, n, s, 0, 1);
    HoldsQuad(p, at, n, s, 1, 0);
    HoldsQuad(p, at, n, s, 1, 1);
  }

  /** One cache line of elements between the scratch matrices. */
  const PADDING: nat := 8

  function Place(k: nat, stride: nat): nat {
    k * stride
  }

  /** The eleven scratch matrices do not overlap. */
  lemma PlacesApart(k: nat, l: nat, stride: nat, mm: nat)
    requires mm <= stride && k < l
    ensures Place(k, stride) + mm <= Place(l, stride)
  {
    assert (k + 1) * stride <= l * stride;
  }

  function SumPlaces(stride: nat): (s: Offsets)
    ensures |s| == 8
  {
    [Place(0, stride), Place(1, stride), Place(2, stride), Place(3, stride), Place(4, stride), Place(5, stride), Place(6, stride), Place(7, stride)]
  }

  lemma SumPlacesApart(stride: nat, mm: nat)
    requires mm <= stride
    ensures Eight(SumPlaces(stride), mm, Place(11, stride))
  {
    hide Place;
    var s := SumPlaces(stride);
    forall k | 0 <= k < 8 ensures s[k] + mm <= Place(11, stride) {
      assert s[k] == Place(k, stride);
      PlacesApart(k, 11, stride, mm);
    }
    forall k, l | 0 <= k < l < 8 ensures s[k] + mm <= s[l] {
      assert s[k] == Place(k, stride) && s[l] == Place(l, stride);
      PlacesApart(k, l, stride, mm);
    }
  }

  /** The k-th sum, as a matrix. */
  function SumOf(s: Sums, k: nat): seq<int> {
    if k == 0 then s.s1 else if k == 1 then s.s2 else if k == 2 then s.s3 else if k == 3 then s.s4
    else if k == 4 then s.s5 else if k == 5 then s.s6 else if k == 6 then s.s7 else s.s8
  }

  /** What setup_add leaves in scratch space are the eight sums. */
  lemma SumsHeld(now: seq<int>, was: seq<int>, stride: nat, power: nat, m: nat, a: Quads, b: Quads, k: nat)
    requires a.Sized(power, m) && b.Sized(power, m) && EvenQuads(a, m * m) && EvenQuads(b, m * m)
    requires m * m <= stride && |was| == Place(11, stride) && k < 8
    requires Summed(now, was, SumPlaces(stride), 0, m * m, m * m, a, b)
    ensures HeldIn(now, Place(k, stride), SumOf(SumsOf(power, m, a, b), k))
  {
    var s := SumPlaces(stride);
    assert s[k] == Place(k, stride);
    PlacesApart(k, 11, stride, m * m);
    var v := SumOf(SumsOf(power, m, a, b), k);
    assert |v| == m * m;
    forall x | 0 <= x < |v| ensures now[s[k] + x] == v[x] {
      SumIsSum(power, m, a, b, k, x);
    }
  }

  lemma SumIsSum(power: nat, m: nat, a: Quads, b: Quads, k: nat, x: nat)
    requires a.Sized(power, m) && b.Sized(power, m) && EvenQuads(a, m * m) && EvenQuads(b, m * m) && k < 8 && x < m * m
    ensures |SumOf(SumsOf(power, m, a, b), k)| == m * m && SumOf(SumsOf(power, m, a, b), k)[x] == SumCell(k, a, b, x)
  {
  }

  /** The eight sums are in place in scratch space. */
  ghost predicate SumsIn(s: seq<int>, stride: nat, v: Sums) {
    forall k: nat :: k < 8 ==> HeldIn(s, Place(k, stride), SumOf(v, k))
  }

  ghost predicate SumsSized(v: Sums, power: nat, m: nat) {
    Size(power, m) && forall k: nat :: k < 8 ==> |SumOf(v, k)| == m * m
  }

  /** Writing scratch matrix k >= 8 leaves the sums alone. */
  lemma SumsStay(now: seq<int>, was: seq<int>, stride: nat, v: Sums, power: nat, m: nat, k: nat, s: seq<int>)
    requires SumsIn(was, stride, v) && SumsSized(v, power, m) && |s| == m * m <= stride && 8 <= k
    requires Wrote(now, was, Place(k, stride), s)
    ensures SumsIn(now, stride, v)
  {
    hide HeldIn, Wrote, SumOf, Place, Size;
    forall l: nat | l < 8 ensures HeldIn(now, Place(l, stride), SumOf(v, l)) {
      PlacesApart(l, k, stride, m * m);
      KeepHeld(now, was, Place(k, stride), s, Place(l, stride), SumOf(v, l));
    }
  }

  /** Two scratch matrices are apart. */
  lemma ScratchClear(T: array<int>, k: nat, l: nat, stride: nat, mm: nat)
    requires mm <= stride && k != l
    ensures Clear(T, Place(k, stride), T, Place(l, stride), mm)
  {
    hide Place;
    if k < l {
      PlacesApart(k, l, stride, mm);
    } else {
      PlacesApart(l, k, stride, mm);
    }
  }

  /** C := A * B by Strassen's method, down to the size where divide and conquer takes over. */
  method StrassenZ(C: array<int>, c: nat, A: array<int>, a: nat, B: array<int>, b: nat, n: nat, power: nat,
                   ghost sa: seq<int>, ghost sb: seq<int>)
    requires Ready(C, c, A, a, B, b, power, n, sa, sb) && power >= 3
    modifies C
    ensures Wrote(C[..], old(C[..]), c, Product(power, n, sa, sb))
    decreases n, 4
  {
    if n <= Pow2(power + 4) {
      hide Product, Wrote, Ready, Pow2;
      MmDacZ(C, c, A, a, B, b, n, false, power, sa, sb);
    } else {
      AboveThreshold(power, n);
      hide Product, Wrote, Pow2;
      StrassenStep(C, c, A, a, B, b, n, power, sa, sb);
    }
  }

  lemma AboveThreshold(power: nat, n: nat)
    requires Size(power, n) && n > Pow2(power + 4)
    ensures Large(power, n)
  {
    assert Pow2(power + 4) == 2 * Pow2(power + 3) && Pow2(power + 3) == 2 * Pow2(power + 2);
    assert Pow2(power + 2) == 2 * Pow2(power + 1) && Pow2(power + 1) == 2 * Pow2(power);
  }

  /** P1, P5 and P6 go to scratch space: M2, M5 and T1 are scratch matrices 8, 9 and 10. */
  method ScratchProducts(T: array<int>, stride: nat, A: array<int>, a: nat, B: array<int>, b: nat, n: nat, power: nat,
                         ghost sa: seq<int>, ghost sb: seq<int>, ghost v: Sums)
    requires power >= 3 && Large(power, n) && n <= MAX_N && |sa| == |sb| == n * n && T != A && T != B
    requires T.Length == Place(11, stride) && n / 2 * (n / 2) <= stride && Holds(A, a, sa) && Holds(B, b, sb)
    requires SumsSized(v, power, n / 2) && SumsIn(T[..], stride, v)
    modifies T
    ensures n % 2 == 0 && Size(power, n / 2) && |v.s1| == |v.s5| == |v.s2| == |v.s6| == n / 2 * (n / 2)
    ensures SumsIn(T[..], stride, v)
    ensures HeldIn(T[..], Place(8, stride), Product(power, n / 2, Quad(n, sa, 0, 0), Quad(n, sb, 0, 0)))
    ensures HeldIn(T[..], Place(9, stride), Product(power, n / 2, v.s1, v.s5))
    ensures HeldIn(T[..], Place(10, stride), Product(power, n / 2, v.s2, v.s6))
    decreases n, 0
  {
    hide Product, Wrote, Quad, Corner, Size, Pow2, Place, HeldIn, SumsIn, SumsSized, Clear, Holds, Ready;
    ghost var m, mm := n / 2, n / 2 * (n / 2);
    LargeHalf(power, n);
    SizesOf(v, power, m);
    ghost var w0 := T[..];
    ghost var p1 := Product(power, m, Quad(n, sa, 0, 0), Quad(n, sb, 0, 0));
    FirstReady(T, stride, A, a, B, b, n, power, sa, sb);
    StrassenZ(T, Place(8, stride), A, a + Corner(power, n, 0, 0), B, b + Corner(power, n, 0, 0), n / 2, power,
              Quad(n, sa, 0, 0), Quad(n, sb, 0, 0));
    ghost var w1 := T[..];
    SumsStay(w1, w0, stride, v, power, m, 8, p1);
    NewHeld(w1, w0, Place(8, stride), p1);
    ScratchReady(T, stride, 9, 0, 4, v, power, m);
    StrassenZ(T, Place(9, stride), T, Place(0, stride), T, Place(4, stride), n / 2, power, v.s1, v.s5);
    ghost var w2, p5 := T[..], Product(power, m, v.s1, v.s5);
    SumsStay(w2, w1, stride, v, power, m, 9, p5);
    NewHeld(w2, w1, Place(9, stride), p5);
    PlacesApart(8, 9, stride, mm);
    KeepHeld(w2, w1, Place(9, stride), p5, Place(8, stride), p1);
    ScratchReady(T, stride, 10, 1, 5, v, power, m);
    StrassenZ(T, Place(10, stride), T, Place(1, stride), T, Place(5, stride), n / 2, power, v.s2, v.s6);
    ghost var w3, p6 := T[..], Product(power, m, v.s2, v.s6);
    SumsStay(w3, w2, stride, v, power, m, 10, p6);
    NewHeld(w3, w2, Place(10, stride), p6);
    PlacesApart(8, 10, stride, mm);
    PlacesApart(9, 10, stride, mm);
    KeepHeld(w3, w2, Place(10, stride), p6, Place(8, stride), p1);
    KeepHeld(w3, w2, Place(10, stride), p6, Place(9, stride), p5);
  }

  lemma SizesOf(v: Sums, power: nat, m: nat)
    requires SumsSized(v, power, m)
    ensures Size(power, m) && |v.s1| == |v.s2| == |v.s3| == |v.s4| == |v.s5| == |v.s6| == |v.s7| == |v.s8| == m * m
  {
    assert SumOf(v, 0) == v.s1 && SumOf(v, 1) == v.s2 && SumOf(v, 2) == v.s3 && SumOf(v, 3) == v.s4;
    assert SumOf(v, 4) == v.s5 && SumOf(v, 5) == v.s6 && SumOf(v, 6) == v.s7 && SumOf(v, 7) == v.s8;
  }

  lemma FirstReady(T: array<int>, stride: nat, A: array<int>, a: nat, B: array<int>, b: nat, n: nat, power: nat, sa: seq<int>, sb: seq<int>)
    requires Large(power, n) && n <= MAX_N && |sa| == |sb| == n * n && T != A && T != B
    requires T.Length == Place(11, stride) && n / 2 * (n / 2) <= stride && Holds(A, a, sa) && Holds(B, b, sb)
    ensures n % 2 == 0
    ensures Ready(T, Place(8, stride), A, a + Corner(power, n, 0, 0), B, b + Corner(power, n, 0, 0), power, n / 2,
                  Quad(n, sa, 0, 0), Quad(n, sb, 0, 0))
  {
    hide Quad, Corner, Size, Pow2, Place, Holds;
    LargeHalf(power, n);
    CornerIsQuarter(power, n, 0, 0);
    HoldsQuad(A, a, n, sa, 0, 0);
    HoldsQuad(B, b, n, sb, 0, 0);
    PlacesApart(8, 11, stride, n / 2 * (n / 2));
  }

  /** Two of the sums are ready to be multiplied into another scratch matrix. */
  lemma ScratchReady(T: array<int>, stride: nat, k: nat, i: nat, j: nat, v: Sums, power: nat, m: nat)
    requires SumsIn(T[..], stride, v) && SumsSized(v, power, m) && m * m <= stride && m <= MAX_N
    requires T.Length == Place(11, stride) && 8 <= k < 11 && i < 8 && j < 8
    ensures Ready(T, Place(k, stride), T, Place(i, stride), T, Place(j, stride), power, m, SumOf(v, i), SumOf(v, j))
  {
    hide SumOf, Place, HeldIn, Clear, Holds, Size;
    HeldIsHolds(T, Place(i, stride), SumOf(v, i));
    HeldIsHolds(T, Place(j, stride), SumOf(v, j));
    ScratchClear(T, k, i, stride, m * m);
    ScratchClear(T, k, j, stride, m * m);
    PlacesApart(k, 11, stride, m * m);
  }

  /** The operands u and v are ready to be multiplied into quadrant (r, s) of the output. */
  ghost predicate OutputReady(C: array<int>, c: nat, r: nat, s: nat, P: array<int>, p: nat, Q: array<int>, q: nat, n: nat, power: nat,
                              u: seq<int>, v: seq<int>)
    reads C, P, Q
  {
    && Large(power, n) && n <= MAX_N && r <= 1 && s <= 1
    && Ready(C, c + Corner(power, n, r, s), P, p, Q, q, power, n / 2, u, v)
  }

  /** Their product is in quadrant (r, s), and nothing else changed. */
  ghost predicate OutputWrote(now: seq<int>, was: seq<int>, c: nat, r: nat, s: nat, n: nat, power: nat, u: seq<int>, v: seq<int>) {
    && Size(power, n / 2) && |u| == |v| == n / 2 * (n / 2)
    && Wrote(now, was, c + (2 * r + s) * (n / 2 * (n / 2)), Product(power, n / 2, u, v))
  }

  /** One product straight into quadrant (r, s) of the output; the whole operands stay ready. */
  method OutputProduct(C: array<int>, c: nat, r: nat, s: nat, P: array<int>, p: nat, Q: array<int>, q: nat, n: nat, power: nat,
                       ghost u: seq<int>, ghost v: seq<int>, A: array<int>, ghost a: nat, B: array<int>, ghost b: nat,
                       ghost sa: seq<int>, ghost sb: seq<int>)
    requires power >= 3 && Large(power, n) && Ready(C, c, A, a, B, b, power, n, sa, sb)
    requires OutputReady(C, c, r, s, P, p, Q, q, n, power, u, v)
    modifies C
    ensures Ready(C, c, A, a, B, b, power, n, sa, sb) && OutputWrote(C[..], old(C[..]), c, r, s, n, power, u, v)
    decreases n, 0
  {
    hide Product, Wrote, Clear, Quad, Corner, Size, Pow2;
    ghost var w0, wa, wb := C[..], A[..], B[..];
    LargeHalf(power, n);
    CornerIsQuarter(power, n, r, s);
    QuarterInside(n, r, s);
    StrassenZ(C, c + Corner(power, n, r, s), P, p, Q, q, n / 2, power, u, v);
    StillHolds(C, c, n * n, w0, c + Corner(power, n, r, s), Product(power, n / 2, u, v), A, a, sa, wa);
    StillHolds(C, c, n * n, w0, c + Corner(power, n, r, s), Product(power, n / 2, u, v), B, b, sb, wb);
  }

  lemma FourProducts(w0: seq<int>, w1: seq<int>, w2: seq<int>, w3: seq<int>, w4: seq<int>, c: nat, mm: nat,
                     p2: seq<int>, p3: seq<int>, p4: seq<int>, p7: seq<int>)
    requires |p2| == |p3| == |p4| == |p7| == mm
    requires Wrote(w1, w0, c + 3 * mm, p7) && Wrote(w2, w1, c, p2) && Wrote(w3, w2, c + mm, p3) && Wrote(w4, w3, c + 2 * mm, p4)
    ensures Wrote(w4, w0, c, p2 + p3 + p4 + p7)
  {
  }

  /** An operand that is a quadrant of A, or one of the sums, is ready whichever quadrant of C is written. */
  ghost predicate Operand(C: array<int>, at: nat, P: array<int>, p: nat, u: seq<int>)
    reads C, P
  {
    Holds(P, p, u) && Clear(C, at, P, p, |u|)
  }

  lemma QuadOperand(C: array<int>, c: nat, A: array<int>, a: nat, power: nat, n: nat, sa: seq<int>, r: nat, s: nat, r': nat, s': nat)
    requires Large(power, n) && n <= MAX_N && |sa| == n * n && r <= 1 && s <= 1 && r' <= 1 && s' <= 1
    requires Holds(A, a, sa) && Clear(C, c, A, a, n * n)
    ensures n % 2 == 0
    ensures Operand(C, c + Corner(power, n, r, s), A, a + Corner(power, n, r', s'), Quad(n, sa, r', s'))
  {
    hide Quad, Corner, Size, Pow2, Holds;
    LargeHalf(power, n);
    CornerIsQuarter(power, n, r, s);
    CornerIsQuarter(power, n, r', s');
    HoldsQuad(A, a, n, sa, r', s');
    QuarterInside(n, r, s);
    QuarterInside(n, r', s');
  }

  lemma SumOperand(C: array<int>, at: nat, T: array<int>, stride: nat, k: nat, v: Sums)
    requires C != T && SumsIn(T[..], stride, v) && k < 8
    ensures Operand(C, at, T, Place(k, stride), SumOf(v, k))
  {
    hide HeldIn, SumOf, Place;
    HeldIsHolds(T, Place(k, stride), SumOf(v, k));
  }

  lemma OperandsReady(C: array<int>, c: nat, power: nat, n: nat, r: nat, s: nat, P: array<int>, p: nat, Q: array<int>, q: nat, u: seq<int>, v: seq<int>)
    requires Large(power, n) && n <= MAX_N && r <= 1 && s <= 1 && c + n * n <= C.Length
    requires |u| == |v| == n / 2 * (n / 2) && Operand(C, c + Corner(power, n, r, s), P, p, u)
    requires Operand(C, c + Corner(power, n, r, s), Q, q, v)
    ensures OutputReady(C, c, r, s, P, p, Q, q, n, power, u, v)
  {
    hide Corner, Size, Pow2, Holds, Clear;
    LargeHalf(power, n);
    CornerIsQuarter(power, n, r, s);
    QuarterInside(n, r, s);
  }

  /** What the four output products need. */
  ghost predicate OutputsReady(C: array<int>, c: nat, T: array<int>, stride: nat, A: array<int>, a: nat, B: array<int>, b: nat, n: nat, power: nat,
                               sa: seq<int>, sb: seq<int>, v: Sums)
    reads C, T, A, B
  {
    && Large(power, n) && Ready(C, c, A, a, B, b, power, n, sa, sb) && C != T
    && SumsSized(v, power, n / 2) && SumsIn(T[..], stride, v)
  }

  lemma ReadyFor7(C: array<int>, c: nat, T: array<int>, stride: nat, A: array<int>, a: nat, B: array<int>, b: nat, n: nat, power: nat,
                  sa: seq<int>, sb: seq<int>, v: Sums)
    requires OutputsReady(C, c, T, stride, A, a, B, b, n, power, sa, sb, v)
    ensures OutputReady(C, c, 1, 1, T, Place(2, stride), T, Place(6, stride), n, power, v.s3, v.s7)
  {
    hide Corner, Size, Pow2, Place, SumsIn, SumsSized, Operand, Clear, Holds, OutputReady;
    SizesOf(v, power, n / 2);
    SumOperand(C, c + Corner(power, n, 1, 1), T, stride, 2, v);
    SumOperand(C, c + Corner(power, n, 1, 1), T, stride, 6, v);
    OperandsReady(C, c, power, n, 1, 1, T, Place(2, stride), T, Place(6, stride), v.s3, v.s7);
  }

  lemma ReadyFor2(C: array<int>, c: nat, T: array<int>, stride: nat, A: array<int>, a: nat, B: array<int>, b: nat, n: nat, power: nat,
                  sa: seq<int>, sb: seq<int>, v: Sums)
    requires OutputsReady(C, c, T, stride, A, a, B, b, n, power, sa, sb, v)
    ensures n % 2 == 0 && n <= MAX_N && |sa| == |sb| == n * n
    ensures OutputReady(C, c, 0, 0, A, a + Corner(power, n, 0, 1), B, b + Corner(power, n, 1, 0), n, power, Quad(n, sa, 0, 1), Quad(n, sb, 1, 0))
  {
    hide Quad, Corner, Size, Pow2, SumsIn, SumsSized, Operand, Clear, Holds, OutputReady;
    LargeHalf(power, n);
    QuadOperand(C, c, A, a, power, n, sa, 0, 0, 0, 1);
    QuadOperand(C, c, B, b, power, n, sb, 0, 0, 1, 0);
    OperandsReady(C, c, power, n, 0, 0, A, a + Corner(power, n, 0, 1), B, b + Corner(power, n, 1, 0), Quad(n, sa, 0, 1), Quad(n, sb, 1, 0));
  }

  lemma ReadyFor3(C: array<int>, c: nat, T: array<int>, stride: nat, A: array<int>, a: nat, B: array<int>, b: nat, n: nat, power: nat,
                  sa: seq<int>, sb: seq<int>, v: Sums)
    requires OutputsReady(C, c, T, stride, A, a, B, b, n, power, sa, sb, v)
    ensures n % 2 == 0 && n <= MAX_N && |sb| == n * n
    ensures OutputReady(C, c, 0, 1, T, Place(3, stride), B, b + Corner(power, n, 1, 1), n, power, v.s4, Quad(n, sb, 1, 1))
  {
    hide Quad, Corner, Size, Pow2, Place, SumsIn, SumsSized, Operand, Clear, Holds, OutputReady;
    LargeHalf(power, n);
    SizesOf(v, power, n / 2);
    SumOperand(C, c + Corner(power, n, 0, 1), T, stride, 3, v);
    QuadOperand(C, c, B, b, power, n, sb, 0, 1, 1, 1);
    OperandsReady(C, c, power, n, 0, 1, T, Place(3, stride), B, b + Corner(power, n, 1, 1), v.s4, Quad(n, sb, 1, 1));
  }

  lemma ReadyFor4(C: array<int>, c: nat, T: array<int>, stride: nat, A: array<int>, a: nat, B: array<int>, b: nat, n: nat, power: nat,
                  sa: seq<int>, sb: seq<int>, v: Sums)
    requires OutputsReady(C, c, T, stride, A, a, B, b, n, power, sa, sb, v)
    ensures n % 2 == 0 && n <= MAX_N && |sa| == n * n
    ensures OutputReady(C, c, 1, 0, A, a + Corner(power, n, 1, 1), T, Place(7, stride), n, power, Quad(n, sa, 1, 1), v.s8)
  {
    hide Quad, Corner, Size, Pow2, Place, SumsIn, SumsSized, Operand, Clear, Holds, OutputReady;
    LargeHalf(power, n);
    SizesOf(v, power, n / 2);
    QuadOperand(C, c, A, a, power, n, sa, 1, 0, 1, 1);
    SumOperand(C, c + Corner(power, n, 1, 0), T, stride, 7, v);
    OperandsReady(C, c, power, n, 1, 0, A, a + Corner(power, n, 1, 1), T, Place(7, stride), Quad(n, sa, 1, 1), v.s8);
  }

  /** The four output products, side by side. */
  ghost function OutputTarget(n: nat, power: nat, sa: seq<int>, sb: seq<int>, v: Sums): (t: seq<int>)
    requires Large(power, n) && |sa| == |sb| == n * n && SumsSized(v, power, n / 2)
    ensures |t| == n * n
  {
    LargeHalf(power, n);
    SizesOf(v, power, n / 2);
    Product(power, n / 2, Quad(n, sa, 0, 1), Quad(n, sb, 1, 0)) + Product(power, n / 2, v.s4, Quad(n, sb, 1, 1))
    + Product(power, n / 2, Quad(n, sa, 1, 1), v.s8) + Product(power, n / 2, v.s3, v.s7)
  }

  lemma OutputsWritten(w0: seq<int>, w1: seq<int>, w2: seq<int>, w3: seq<int>, w4: seq<int>, c: nat, n: nat, power: nat,
                       sa: seq<int>, sb: seq<int>, v: Sums)
    requires Large(power, n) && |sa| == |sb| == n * n && SumsSized(v, power, n / 2) && n % 2 == 0
    requires OutputWrote(w1, w0, c, 1, 1, n, power, v.s3, v.s7)
    requires OutputWrote(w2, w1, c, 0, 0, n, power, Quad(n, sa, 0, 1), Quad(n, sb, 1, 0))
    requires OutputWrote(w3, w2, c, 0, 1, n, power, v.s4, Quad(n, sb, 1, 1))
    requires OutputWrote(w4, w3, c, 1, 0, n, power, Quad(n, sa, 1, 1), v.s8)
    ensures Wrote(w4, w0, c, OutputTarget(n, power, sa, sb, v))
  {
    hide Product, Wrote, Quad, Size, Pow2, SumsSized;
    SizesOf(v, power, n / 2);
    FourProducts(w0, w1, w2, w3, w4, c, n / 2 * (n / 2), Product(power, n / 2, Quad(n, sa, 0, 1), Quad(n, sb, 1, 0)),
                 Product(power, n / 2, v.s4, Quad(n, sb, 1, 1)), Product(power, n / 2, Quad(n, sa, 1, 1), v.s8),
                 Product(power, n / 2, v.s3, v.s7));
  }

  /** P7 and P2 go to the output: C22 and C11. */
  method FirstOutputs(C: array<int>, c: nat, T: array<int>, stride: nat, A: array<int>, a: nat, B: array<int>, b: nat, n: nat, power: nat,
                      ghost sa: seq<int>, ghost sb: seq<int>, ghost v: Sums)
    returns (ghost w1: seq<int>)
    requires power >= 3 && OutputsReady(C, c, T, stride, A, a, B, b, n, power, sa, sb, v)
    modifies C
    ensures OutputsReady(C, c, T, stride, A, a, B, b, n, power, sa, sb, v) && |sa| == |sb| == n * n && n % 2 == 0
    ensures OutputWrote(w1, old(C[..]), c, 1, 1, n, power, v.s3, v.s7)
    ensures OutputWrote(C[..], w1, c, 0, 0, n, power, Quad(n, sa, 0, 1), Quad(n, sb, 1, 0))
    decreases n, 1
  {
    assert n <= MAX_N && |sa| == |sb| == n * n;
    hide Product, Wrote, Quad, Corner, Large, Place, SumsIn, SumsSized, Ready, OutputReady, OutputWrote;
    LargeHalf(power, n);
    ReadyFor7(C, c, T, stride, A, a, B, b, n, power, sa, sb, v);
    OutputProduct(C, c, 1, 1, T, Place(2, stride), T, Place(6, stride), n, power, v.s3, v.s7, A, a, B, b, sa, sb);
    w1 := C[..];
    ReadyFor2(C, c, T, stride, A, a, B, b, n, power, sa, sb, v);
    OutputProduct(C, c, 0, 0, A, a + Corner(power, n, 0, 1), B, b + Corner(power, n, 1, 0), n, power,
                  Quad(n, sa, 0, 1), Quad(n, sb, 1, 0), A, a, B, b, sa, sb);
  }

  /** P3 and P4 go to the output: C12 and C21. */
  method LastOutputs(C: array<int>, c: nat, T: array<int>, stride: nat, A: array<int>, a: nat, B: array<int>, b: nat, n: nat, power: nat,
                     ghost sa: seq<int>, ghost sb: seq<int>, ghost v: Sums)
    returns (ghost w3: seq<int>)
    requires power >= 3 && OutputsReady(C, c, T, stride, A, a, B, b, n, power, sa, sb, v)
    modifies C
    ensures |sa| == |sb| == n * n && n % 2 == 0
    ensures OutputWrote(w3, old(C[..]), c, 0, 1, n, power, v.s4, Quad(n, sb, 1, 1))
    ensures OutputWrote(C[..], w3, c, 1, 0, n, power, Quad(n, sa, 1, 1), v.s8)
    decreases n, 1
  {
    assert n <= MAX_N && |sa| == |sb| == n * n;
    hide Product, Wrote, Quad, Corner, Large, Place, SumsIn, SumsSized, Ready, OutputReady, OutputWrote;
    LargeHalf(power, n);
    ReadyFor3(C, c, T, stride, A, a, B, b, n, power, sa, sb, v);
    OutputProduct(C, c, 0, 1, T, Place(3, stride), B, b + Corner(power, n, 1, 1), n, power, v.s4, Quad(n, sb, 1, 1), A, a, B, b, sa, sb);
    w3 := C[..];
    ReadyFor4(C, c, T, stride, A, a, B, b, n, power, sa, sb, v);
    OutputProduct(C, c, 1, 0, A, a + Corner(power, n, 1, 1), T, Place(7, stride), n, power, Quad(n, sa, 1, 1), v.s8, A, a, B, b, sa, sb);
  }

  method OutputProducts(C: array<int>, c: nat, T: array<int>, stride: nat, A: array<int>, a: nat, B: array<int>, b: nat, n: nat, power: nat,
                        ghost sa: seq<int>, ghost sb: seq<int>, ghost v: Sums)
    requires power >= 3 && OutputsReady(C, c, T, stride, A, a, B, b, n, power, sa, sb, v)
    modifies C
    ensures |sa| == |sb| == n * n && Wrote(C[..], old(C[..]), c, OutputTarget(n, power, sa, sb, v))
    decreases n, 2
  {
    hide Product, Wrote, Quad, Place, SumsIn, SumsSized, Ready, OutputWrote, OutputTarget;
    ghost var w0 := C[..];
    var w1 := FirstOutputs(C, c, T, stride, A, a, B, b, n, power, sa, sb, v);
    ghost var w2 := C[..];
    var w3 := LastOutputs(C, c, T, stride, A, a, B, b, n, power, sa, sb, v);
    OutputsWritten(w0, w1, w2, w3, C[..], c, n, power, sa, sb, v);
  }

  lemma PartsApart(C: array<int>, c: nat, power: nat, n: nat)
    requires Large(power, n) && n <= MAX_N && c + n * n <= C.Length
    ensures Apart(Parts(power, n, c), n / 2 * (n / 2), C.Length)
    ensures var mm := n / 2 * (n / 2); Parts(power, n, c) == [c, c + mm, c + 2 * mm, c + 3 * mm]
  {
    hide Corner;
    Corners(power, n);
    LargeHalf(power, n);
  }

  /** The four products were written into the output's quadrants, giving w1, and the final additions made w2. */
  ghost predicate Recombination(w0: seq<int>, w1: seq<int>, w2: seq<int>, c: nat, power: nat, n: nat, sa: seq<int>, sb: seq<int>) {
    && Large(power, n) && |sa| == |sb| == n * n && c + n * n <= |w0| && |w1| == |w0|
    && var p, mm := SevenOf(power, n / 2, QuadsOf(power, n, sa), QuadsOf(power, n, sb)), n / 2 * (n / 2);
    && |p.p1| == |p.p2| == |p.p3| == |p.p4| == |p.p5| == |p.p6| == |p.p7| == mm
    && Wrote(w1, w0, c, p.p2 + p.p3 + p.p4 + p.p7)
    && Apart([c, c + mm, c + 2 * mm, c + 3 * mm], mm, |w1|)
    && Combined(w2, w1, [c, c + mm, c + 2 * mm, c + 3 * mm], 0, mm, mm, p.p1, p.p5, p.p6)
  }

  lemma CellsOfProduct(w0: seq<int>, w1: seq<int>, w2: seq<int>, c: nat, power: nat, n: nat, sa: seq<int>, sb: seq<int>, z: nat)
    requires Recombination(w0, w1, w2, c, power, n, sa, sb) && z < n / 2 * (n / 2)
    ensures CellsAre(w2, c, n / 2 * (n / 2), z, Product(power, n, sa, sb))
  {
    hide Product, SevenOf, Size, Pow2, Recombined, Apart, QuadsOf, Among, QuadProduct, Wrote;
    LargeHalf(power, n);
    var mm := n / 2 * (n / 2);
    var qa, qb := QuadsOf(power, n, sa), QuadsOf(power, n, sb);
    var p := SevenOf(power, n / 2, qa, qb);
    FourOfW(w1, w0, c, mm, p.p2, p.p3, p.p4, p.p7, z);
    StrassenWinograd(power, n / 2, qa, qb, z);
    QuadsOfProduct(power, n, sa, sb, z);
  }

  lemma FourOfW(w1: seq<int>, w0: seq<int>, c: nat, mm: nat, p2: seq<int>, p3: seq<int>, p4: seq<int>, p7: seq<int>, z: nat)
    requires |p2| == |p3| == |p4| == |p7| == mm && Wrote(w1, w0, c, p2 + p3 + p4 + p7) && z < mm
    ensures c + 3 * mm + z < |w1|
    ensures w1[c + z] == p2[z] && w1[c + mm + z] == p3[z] && w1[c + 2 * mm + z] == p4[z] && w1[c + 3 * mm + z] == p7[z]
  {
    var w := p2 + p3 + p4 + p7;
    assert w[z] == p2[z] && w[mm + z] == p3[z] && w[2 * mm + z] == p4[z] && w[3 * mm + z] == p7[z];
    assert w1[c + z] == w[z] && w1[c + mm + z] == w[mm + z] && w1[c + 2 * mm + z] == w[2 * mm + z] && w1[c + 3 * mm + z] == w[3 * mm + z];
  }

  lemma QuadsOfProduct(power: nat, n: nat, sa: seq<int>, sb: seq<int>, z: nat)
    requires Large(power, n) && |sa| == |sb| == n * n && z < n / 2 * (n / 2)
    ensures n * n == 4 * (n / 2 * (n / 2))
    ensures var qa, qb, mm, t := QuadsOf(power, n, sa), QuadsOf(power, n, sb), n / 2 * (n / 2), Product(power, n, sa, sb);
      (t[z], t[mm + z], t[2 * mm + z], t[3 * mm + z])
      == (Product(power, n / 2, qa.q11, qb.q11)[z] + Product(power, n / 2, qa.q12, qb.q21)[z],
          Product(power, n / 2, qa.q11, qb.q12)[z] + Product(power, n / 2, qa.q12, qb.q22)[z],
          Product(power, n / 2, qa.q21, qb.q11)[z] + Product(power, n / 2, qa.q22, qb.q21)[z],
          Product(power, n / 2, qa.q21, qb.q12)[z] + Product(power, n / 2, qa.q22, qb.q22)[z])
  {
    hide Product, Size, Pow2, Quad;
    LargeHalf(power, n);
    ProductQuadrantAt(power, n, sa, sb, 0, 0, z);
    ProductQuadrantAt(power, n, sa, sb, 0, 1, z);
    ProductQuadrantAt(power, n, sa, sb, 1, 0, z);
    ProductQuadrantAt(power, n, sa, sb, 1, 1, z);
  }

  lemma RestKept(w0: seq<int>, w1: seq<int>, w2: seq<int>, c: nat, power: nat, n: nat, sa: seq<int>, sb: seq<int>)
    requires Recombination(w0, w1, w2, c, power, n, sa, sb)
    ensures OnlyIn(w2, w0, c, n * n)
  {
    hide Product, SevenOf, Size, Pow2, Recombined, Apart, QuadsOf;
    LargeHalf(power, n);
    var mm := n / 2 * (n / 2);
    var o := [c, c + mm, c + 2 * mm, c + 3 * mm];
    forall y | 0 <= y < |w0| && !(c <= y < c + n * n) ensures w2[y] == w0[y] {
      forall k | 0 <= k < |o| ensures !(o[k] <= y < o[k] + mm) {
      }
    }
  }

  /** The final additions turn the seven products into the product. */
  lemma FinalIsProduct(w0: seq<int>, w1: seq<int>, w2: seq<int>, c: nat, power: nat, n: nat, sa: seq<int>, sb: seq<int>)
    requires Recombination(w0, w1, w2, c, power, n, sa, sb)
    ensures Wrote(w2, w0, c, Product(power, n, sa, sb))
  {
    assert Large(power, n) && |sa| == |sb| == n * n;
    LargeHalf(power, n);
    var mm, t := n / 2 * (n / 2), Product(power, n, sa, sb);
    RestKept(w0, w1, w2, c, power, n, sa, sb);
    assert c + 4 * mm <= |w2| == |w0|;
    hide Product, Recombination, Wrote, CellsAre, OnlyIn, HeldIn, Size, Pow2;
    forall z: nat | z < mm ensures CellsAre(w2, c, mm, z, t) {
      CellsOfProduct(w0, w1, w2, c, power, n, sa, sb, z);
    }
    AllCells(w2, c, mm, t);
    WroteAll(w2, w0, c, t);
  }

  /** Cell z of each quadrant is as in t. */
  ghost predicate CellsAre(w: seq<int>, c: nat, mm: nat, z: nat, t: seq<int>) {
    && z < mm && |t| == 4 * mm && c + 4 * mm <= |w|
    && w[c + z] == t[z] && w[c + mm + z] == t[mm + z] && w[c + 2 * mm + z] == t[2 * mm + z] && w[c + 3 * mm + z] == t[3 * mm + z]
  }

  lemma AllCells(w: seq<int>, c: nat, mm: nat, t: seq<int>)
    requires |t| == 4 * mm && c + 4 * mm <= |w| && forall z: nat :: z < mm ==> CellsAre(w, c, mm, z, t)
    ensures HeldIn(w, c, t)
  {
    forall x | 0 <= x < |t| ensures w[c + x] == t[x] {
      var z := if x < mm then x else if x < 2 * mm then x - mm else if x < 3 * mm then x - 2 * mm else x - 3 * mm;
      assert CellsAre(w, c, mm, z, t);
    }
  }

  lemma WroteAll(now: seq<int>, was: seq<int>, c: nat, t: seq<int>)
    requires HeldIn(now, c, t) && OnlyIn(now, was, c, |t|)
    ensures Wrote(now, was, c, t)
  {
    forall x | c <= x < c + |t| ensures now[x] == t[x - c] {
      assert now[c + (x - c)] == t[x - c];
    }
  }

  /** The sums of the quadrants of A and B. */
  ghost function OperandSums(power: nat, n: nat, sa: seq<int>, sb: seq<int>): (v: Sums)
    requires Large(power, n) && |sa| == |sb| == n * n
    ensures SumsSized(v, power, n / 2)
  {
    LargeHalf(power, n);
    SumsAreSized(power, n / 2, QuadsOf(power, n, sa), QuadsOf(power, n, sb));
    SumsOf(power, n / 2, QuadsOf(power, n, sa), QuadsOf(power, n, sb))
  }

  method SetupSums(T: array<int>, stride: nat, A: array<int>, a: nat, B: array<int>, b: nat, n: nat, power: nat,
                   ghost sa: seq<int>, ghost sb: seq<int>)
    requires power >= 3 && Large(power, n) && n <= MAX_N && |sa| == |sb| == n * n && T != A && T != B
    requires T.Length == Place(11, stride) && n / 2 * (n / 2) <= stride && Holds(A, a, sa) && Holds(B, b, sb)
    modifies T
    ensures SumsIn(T[..], stride, OperandSums(power, n, sa, sb))
  {
    hide Size, Pow2, Place, SumsIn, QuadsOf, SumsOf, Summed, QuadsHeld, Parts, Eight;
    LargeHalf(power, n);
    ghost var qa, qb, mm, t0 := QuadsOf(power, n, sa), QuadsOf(power, n, sb), n / 2 * (n / 2), T[..];
    PartsHeld(A, a, power, n, sa);
    PartsHeld(B, b, power, n, sb);
    SumPlacesApart(stride, mm);
    SetupAdd(T, SumPlaces(stride), A, Parts(power, n, a), B, Parts(power, n, b), 0, n / 2, power, mm, qa, qb);
    AllSumsHeld(T[..], t0, stride, power, n / 2, qa, qb);
  }

  /** The final additions over the whole output. */
  method FinishOutput(C: array<int>, c: nat, T: array<int>, stride: nat, n: nat, power: nat, ghost sa: seq<int>, ghost sb: seq<int>, ghost w0: seq<int>)
    requires power >= 3 && Large(power, n) && n <= MAX_N && |sa| == |sb| == n * n && c + n * n <= C.Length && C != T
    requires Wrote(C[..], w0, c, OutputTarget(n, power, sa, sb, OperandSums(power, n, sa, sb)))
    requires var p := SevenOf(power, n / 2, QuadsOf(power, n, sa), QuadsOf(power, n, sb));
      HeldIn(T[..], Place(8, stride), p.p1) && HeldIn(T[..], Place(9, stride), p.p5) && HeldIn(T[..], Place(10, stride), p.p6)
    modifies C
    ensures Wrote(C[..], w0, c, Product(power, n, sa, sb))
  {
    ghost var p := SevenOf(power, n / 2, QuadsOf(power, n, sa), QuadsOf(power, n, sb));
    assert OutputTarget(n, power, sa, sb, OperandSums(power, n, sa, sb)) == p.p2 + p.p3 + p.p4 + p.p7;
    hide Product, Size, Pow2, Place, QuadsOf, SevenOf, Parts, Apart, Combined, HeldIn, OutputTarget, OperandSums;
    LargeHalf(power, n);
    ghost var w1, mm := C[..], n / 2 * (n / 2);
    assert |w1| == |w0|;
    hide Wrote;
    PartsApart(C, c, power, n);
    ScratchHeld(T, stride, power, n, sa, sb);
    FinalAdd(C, Parts(power, n, c), T, [Place(8, stride), Place(9, stride), Place(10, stride)], 0, n / 2, power, mm, p.p1, p.p5, p.p6);
    FinalIsProduct(w0, w1, C[..], c, power, n, sa, sb);
  }

  /** Above the threshold: sums, seven products, final additions. */
  method StrassenStep(C: array<int>, c: nat, A: array<int>, a: nat, B: array<int>, b: nat, n: nat, power: nat,
                      ghost sa: seq<int>, ghost sb: seq<int>)
    requires Ready(C, c, A, a, B, b, power, n, sa, sb) && power >= 3 && Large(power, n)
    modifies C
    ensures Wrote(C[..], old(C[..]), c, Product(power, n, sa, sb))
    decreases n, 3
  {
    var newN := n / 2;
    var stride := newN * newN + PADDING;
    assert Place(11, stride) >= 0;
    assert |sa| == |sb| == n * n && n <= MAX_N && c + n * n <= C.Length;
    var T := new int[Place(11, stride)];
    ghost var w0, v := C[..], OperandSums(power, n, sa, sb);
    SameOperands(power, n, sa, sb);
    hide Product, Wrote, Quad, Size, Pow2, Place, SumsIn, SumsSized, OperandSums, OutputTarget, HeldIn;
    SetupSums(T, stride, A, a, B, b, n, power, sa, sb);
    ScratchProducts(T, stride, A, a, B, b, n, power, sa, sb, v);
    OutputProducts(C, c, T, stride, A, a, B, b, n, power, sa, sb, v);
    FinishOutput(C, c, T, stride, n, power, sa, sb, w0);
  }

  /** The scratch products are three of the seven. */
  lemma SameOperands(power: nat, n: nat, sa: seq<int>, sb: seq<int>)
    requires Large(power, n) && |sa| == |sb| == n * n
    ensures n % 2 == 0 && Size(power, n / 2)
    ensures var p, v := SevenOf(power, n / 2, QuadsOf(power, n, sa), QuadsOf(power, n, sb)), OperandSums(power, n, sa, sb);
      && |v.s1| == |v.s5| == |v.s2| == |v.s6| == n / 2 * (n / 2)
      && p.p1 == Product(power, n / 2, Quad(n, sa, 0, 0), Quad(n, sb, 0, 0))
      && p.p5 == Product(power, n / 2, v.s1, v.s5) && p.p6 == Product(power, n / 2, v.s2, v.s6)
  {
    hide Product, Quad, Size, Pow2;
    LargeHalf(power, n);
  }

  lemma SumsAreSized(power: nat, m: nat, a: Quads, b: Quads)
    requires a.Sized(power, m) && b.Sized(power, m)
    ensures SumsSized(SumsOf(power, m, a, b), power, m)
  {
  }

  lemma AllSumsHeld(now: seq<int>, was: seq<int>, stride: nat, power: nat, m: nat, a: Quads, b: Quads)
    requires a.Sized(power, m) && b.Sized(power, m) && EvenQuads(a, m * m) && EvenQuads(b, m * m)
    requires m * m <= stride && |was| == Place(11, stride)
    requires Summed(now, was, SumPlaces(stride), 0, m * m, m * m, a, b)
    ensures SumsIn(now, stride, SumsOf(power, m, a, b))
  {
    hide Summed, HeldIn, SumOf, SumsOf, SumPlaces, Place;
    forall k: nat | k < 8 ensures HeldIn(now, Place(k, stride), SumOf(SumsOf(power, m, a, b), k)) {
      SumsHeld(now, was, stride, power, m, a, b, k);
    }
  }

  lemma ScratchHeld(T: array<int>, stride: nat, power: nat, n: nat, sa: seq<int>, sb: seq<int>)
    requires Large(power, n) && |sa| == |sb| == n * n
    requires var p := SevenOf(power, n / 2, QuadsOf(power, n, sa), QuadsOf(power, n, sb));
      HeldIn(T[..], Place(8, stride), p.p1) && HeldIn(T[..], Place(9, stride), p.p5) && HeldIn(T[..], Place(10, stride), p.p6)
    ensures var p := SevenOf(power, n / 2, QuadsOf(power, n, sa), QuadsOf(power, n, sb));
      Scratch(T, [Place(8, stride), Place(9, stride), Place(10, stride)], p.p1, p.p5, p.p6)
  {
    hide HeldIn, Place, SevenOf, QuadsOf, Holds;
    var p := SevenOf(power, n / 2, QuadsOf(power, n, sa), QuadsOf(power, n, sb));
    HeldIsHolds(T, Place(8, stride), p.p1);
    HeldIsHolds(T, Place(9, stride), p.p5);
    HeldIsHolds(T, Place(10, stride), p.p6);
  }
}
