/**
 matmul.cpp: the two iterative products, the recursive product on the Z-order layout, and the one on
 windows of row-major matrices.
 */
module Matmul {
  import opened Morton
  import opened BlockLayout
  import opened Matrices
  import opened BaseCase
  import opened ZMultiply

  // ---------------------------------------------------------------- iter_matmul

  /** Position z comes before cell (i, k) in row-by-row order. */
  predicate Before(power: nat, z: nat, i: nat, k: nat) {
    RowAt(power, z) < i || (RowAt(power, z) == i && ColAt(power, z) < k)
  }

  ghost predicate PlainSoFar(now: seq<int>, was: seq<int>, power: nat, n: nat, sa: seq<int>, sb: seq<int>, i: nat, k: nat)
    requires Matrix(power, n, sa) && Matrix(power, n, sb)
  {
    && |now| == |was| && n * n <= |was|
    && forall z: nat :: z < |was| ==> now[z] == if z < n * n && Before(power, z, i, k) then ProductAt(power, n, sa, sb, z) else was[z]
  }

  lemma PlainNext(now: seq<int>, next: seq<int>, was: seq<int>, power: nat, n: nat, sa: seq<int>, sb: seq<int>, i: nat, k: nat)
    requires Matrix(power, n, sa) && Matrix(power, n, sb) && i < n && k < n && PlainSoFar(now, was, power, n, sa, sb, i, k)
    requires Index(power, i, k) < n * n && next == now[Index(power, i, k) := Dot(power, n, sa, sb, i, k, n)]
    ensures PlainSoFar(next, was, power, n, sa, sb, i, k + 1)
  {
    hide Index, RowAt, ColAt, Dot, Size;
    IndexThere(power, i, k);
    forall z: nat | z < |was|
      ensures next[z] == if z < n * n && Before(power, z, i, k + 1) then ProductAt(power, n, sa, sb, z) else was[z] {
      IndexBack(power, z);
    }
  }

  lemma PlainNextRow(now: seq<int>, was: seq<int>, power: nat, n: nat, sa: seq<int>, sb: seq<int>, i: nat)
    requires Matrix(power, n, sa) && Matrix(power, n, sb) && i < n && PlainSoFar(now, was, power, n, sa, sb, i, n)
    ensures PlainSoFar(now, was, power, n, sa, sb, i + 1, 0)
  {
    hide Index, RowAt, ColAt, ProductAt, Size;
    forall z: nat | z < n * n ensures Before(power, z, i, n) <==> Before(power, z, i + 1, 0) {
      PlaceInRange(power, n, z);
    }
  }

  lemma PlainDone(now: seq<int>, was: seq<int>, power: nat, n: nat, sa: seq<int>, sb: seq<int>)
    requires Matrix(power, n, sa) && Matrix(power, n, sb) && PlainSoFar(now, was, power, n, sa, sb, n, 0)
    ensures Wrote(now, was, 0, Product(power, n, sa, sb))
  {
    hide Index, RowAt, ColAt, ProductAt, Size;
    forall x | 0 <= x < n * n ensures now[x] == Product(power, n, sa, sb)[x] {
      PlaceInRange(power, n, x);
    }
  }

  /** The product by its definition, entry by entry through block_convert; matrixmul of strassen.cpp too. */
  method IterMatmul(A: array<int>, B: array<int>, C: array<int>, n: nat, power: nat)
    requires Size(power, n) && n <= MAX_N && n * n == A.Length == B.Length && n * n <= C.Length && C != A && C != B
    modifies C
    ensures Wrote(C[..], old(C[..]), 0, Product(power, n, A[..], B[..]))
  {
    hide Index, Dot, Size, Wrote, Product, PlainSoFar, BlockConvert;
    ghost var sa, sb, was := A[..], B[..], C[..];
    NothingYet(was, power, n, sa, sb);
    for i := 0 to n
      invariant PlainSoFar(C[..], was, power, n, sa, sb, i, 0)
      invariant A[..] == sa && B[..] == sb
    {
      for k := 0 to n
        invariant PlainSoFar(C[..], was, power, n, sa, sb, i, k)
        invariant A[..] == sa && B[..] == sb
      {
        var c := RowTimesColumn(A, B, n, power, i, k);
        BlockConvertIsIndex(power, i, k);
        IndexInRange(power, n, i, k);
        ghost var now := C[..];
        C[BlockConvert(power, i, k)] := c;
        assert C[..] == now[Index(power, i, k) := c];
        PlainNext(now, C[..], was, power, n, sa, sb, i, k);
      }
      PlainNextRow(C[..], was, power, n, sa, sb, i);
    }
    PlainDone(C[..], was, power, n, sa, sb);
  }

  lemma NothingYet(was: seq<int>, power: nat, n: nat, sa: seq<int>, sb: seq<int>)
    requires Matrix(power, n, sa) && Matrix(power, n, sb) && n * n <= |was|
    ensures PlainSoFar(was, was, power, n, sa, sb, 0, 0)
  {
  }

  method RowTimesColumn(A: array<int>, B: array<int>, n: nat, power: nat, i: nat, k: nat) returns (c: int)
    requires Size(power, n) && n <= MAX_N && n * n == A.Length == B.Length && i < n && k < n
    ensures c == Dot(power, n, A[..], B[..], i, k, n)
  {
    hide Index, Size, BlockConvert;
    c := 0;
    for j := 0 to n
      invariant c == Dot(power, n, A[..], B[..], i, k, j)
    {
      BlockConvertIsIndex(power, i, j);
      BlockConvertIsIndex(power, j, k);
      IndexInRange(power, n, i, j);
      IndexInRange(power, n, j, k);
      c := c + A[BlockConvert(power, i, j)] * B[BlockConvert(power, j, k)];
    }
  }

  // ---------------------------------------------------------------- mat_mul_par

  /** One block: row-major loops, onto what is there. */
  method PlainBlock(C: array<int>, c: nat, A: array<int>, a: nat, B: array<int>, b: nat, n: nat, ghost sa: seq<int>, ghost sb: seq<int>)
    requires n > 0 && |sa| == |sb| == n * n && c + n * n <= C.Length
    requires Holds(A, a, sa) && Holds(B, b, sb) && Clear(C, c, A, a, n * n) && Clear(C, c, B, b, n * n)
    modifies C
    ensures Computed(C[..], old(C[..]), c, n * n, true, n, sa, sb)
  {
    hide RowDot, Computed, CellAt;
    ghost var was, at := C[..], 0;
    BaseCase.NothingYet(was, c, true, n, sa, sb);
    for i := 0 to n
      invariant at == i * n && Holds(A, a, sa) && Holds(B, b, sb)
      invariant Computed(C[..], was, c, at, true, n, sa, sb)
    {
      Inside(i, 0, n);
      PlainRow(C, c, A, a, B, b, n, i, was, sa, sb, at);
      NextRow(i + 1, n);
      at := at + n;
    }
  }

  method PlainRow(C: array<int>, c: nat, A: array<int>, a: nat, B: array<int>, b: nat, n: nat, i: nat,
                  ghost was: seq<int>, ghost sa: seq<int>, ghost sb: seq<int>, ghost at: nat)
    requires n > 0 && |sa| == |sb| == n * n && c + n * n <= C.Length && i < n && at == i * n && at + n <= n * n
    requires Holds(A, a, sa) && Holds(B, b, sb) && Clear(C, c, A, a, n * n) && Clear(C, c, B, b, n * n)
    requires Computed(C[..], was, c, at, true, n, sa, sb)
    modifies C
    ensures Holds(A, a, sa) && Holds(B, b, sb) && Computed(C[..], was, c, at + n, true, n, sa, sb)
  {
    hide RowDot, Computed, CellAt;
    for k := 0 to n
      invariant Holds(A, a, sa) && Holds(B, b, sb)
      invariant Computed(C[..], was, c, at + k, true, n, sa, sb)
    {
      var sum := BlockRowTimesColumn(A, a, B, b, n, i, k, sa, sb);
      ghost var now := C[..];
      C[c + i * n + k] := C[c + i * n + k] + sum;
      assert C[..] == now[c + at + k := now[c + at + k] + sum];
      OneMore(now, was, c, n, sa, sb, i, k, at, sum);
    }
  }

  lemma OneMore(now: seq<int>, was: seq<int>, c: nat, n: nat, sa: seq<int>, sb: seq<int>, i: nat, k: nat, at: nat, sum: int)
    requires |sa| == |sb| == n * n && i < n && k < n && at == i * n && at + n <= n * n
    requires Computed(now, was, c, at + k, true, n, sa, sb) && c + at + k < |now| && sum == RowDot(n, sa, sb, i, k, n)
    ensures Computed(now[c + at + k := now[c + at + k] + sum], was, c, at + k + 1, true, n, sa, sb)
  {
    hide RowDot, Quot, Rem;
    QuotIs(at + k, i, k, n);
  }

  method BlockRowTimesColumn(A: array<int>, a: nat, B: array<int>, b: nat, n: nat, i: nat, k: nat, ghost sa: seq<int>, ghost sb: seq<int>)
    returns (c: int)
    requires |sa| == |sb| == n * n && Holds(A, a, sa) && Holds(B, b, sb) && i < n && k < n
    ensures c == RowDot(n, sa, sb, i, k, n)
  {
    c := 0;
    for j := 0 to n
      invariant c == RowDot(n, sa, sb, i, k, j)
    {
      Inside(i, j, n);
      Inside(j, k, n);
      assert A[a + (i * n + j)] == sa[i * n + j] && B[b + (j * n + k)] == sb[j * n + k];
      c := c + A[a + (i * n + j)] * B[b + (j * n + k)];
    }
  }

  /** C := C + A * B on the Z-order layout. */
  method MatMulPar(A: array<int>, a: nat, B: array<int>, b: nat, C: array<int>, c: nat, n: nat, power: nat, ghost sa: seq<int>, ghost sb: seq<int>)
    requires Ready(C, c, A, a, B, b, power, n, sa, sb)
    modifies C
    ensures Wrote(C[..], old(C[..]), c, Target(true, Window(old(C[..]), c, n * n), Product(power, n, sa, sb)))
    decreases n, 3
  {
    hide Product, Wrote, Target, Window, Pow2, Size;
    if n == Pow2(power) {
      BaseBlock(A, a, B, b, C, c, n, power, sa, sb);
    } else {
      AboveABlock(power, n);
      BothRounds(A, a, B, b, C, c, n, power, sa, sb);
    }
  }

  method BaseBlock(A: array<int>, a: nat, B: array<int>, b: nat, C: array<int>, c: nat, n: nat, power: nat, ghost sa: seq<int>, ghost sb: seq<int>)
    requires Ready(C, c, A, a, B, b, power, n, sa, sb) && n == Pow2(power)
    modifies C
    ensures Wrote(C[..], old(C[..]), c, Target(true, Window(old(C[..]), c, n * n), Product(power, n, sa, sb)))
  {
    hide Product, Wrote, Target, Computed, Holds, Clear, Window, Pow2, Size;
    PlainBlock(C, c, A, a, B, b, n, sa, sb);
    ComputedWrote(C[..], old(C[..]), c, true, power, n, sa, sb);
  }

  method BothRounds(A: array<int>, a: nat, B: array<int>, b: nat, C: array<int>, c: nat, n: nat, power: nat, ghost sa: seq<int>, ghost sb: seq<int>)
    requires Ready(C, c, A, a, B, b, power, n, sa, sb) && Large(power, n)
    modifies C
    ensures Wrote(C[..], old(C[..]), c, Target(true, Window(old(C[..]), c, n * n), Product(power, n, sa, sb)))
    decreases n, 2
  {
    hide Product, Wrote, Target, Clear, RoundTarget, Window, Pow2, Size;
    ghost var w0 := C[..];
    ghost var w, wa, wb := Window(w0, c, n * n), A[..], B[..];
    AddRound(A, a, B, b, C, c, n, 0, power, sa, sb);
    ghost var w1, r1 := C[..], RoundTarget(power, n, w, sa, sb, 0, true);
    StillHolds(C, c, n * n, w0, c, r1, A, a, sa, wa);
    StillHolds(C, c, n * n, w0, c, r1, B, b, sb, wb);
    AddRound(A, a, B, b, C, c, n, 1, power, sa, sb);
    WroteWindow(w1, w0, c, r1);
    WroteOver(C[..], w1, w0, c, r1, RoundTarget(power, n, r1, sa, sb, 1, true));
    TwoRounds(power, n, w, sa, sb, true);
  }

  /** The four calls between two syncs. */
  method AddRound(A: array<int>, a: nat, B: array<int>, b: nat, C: array<int>, c: nat, n: nat, k: nat, power: nat, ghost sa: seq<int>, ghost sb: seq<int>)
    requires Ready(C, c, A, a, B, b, power, n, sa, sb) && Large(power, n) && k <= 1
    modifies C
    ensures Wrote(C[..], old(C[..]), c, RoundTarget(power, n, Window(old(C[..]), c, n * n), sa, sb, k, true))
    decreases n, 1
  {
    assert c + n * n <= C.Length && |sa| == |sb| == n * n;
    hide Ready, Wrote, RoundTarget, StepWrote, Large;
    ghost var w0 := C[..];
    AddStep(A, a, B, b, C, c, n, 0, 0, k, power, sa, sb);
    ghost var w1 := C[..];
    AddStep(A, a, B, b, C, c, n, 0, 1, k, power, sa, sb);
    ghost var w2 := C[..];
    AddStep(A, a, B, b, C, c, n, 1, 0, k, power, sa, sb);
    ghost var w3 := C[..];
    AddStep(A, a, B, b, C, c, n, 1, 1, k, power, sa, sb);
    RoundWritten(w0, w1, w2, w3, C[..], c, power, n, sa, sb, k, true);
  }

  method AddStep(A: array<int>, a: nat, B: array<int>, b: nat, C: array<int>, c: nat, n: nat, r: nat, s: nat, k: nat, power: nat,
                 ghost sa: seq<int>, ghost sb: seq<int>)
    requires Ready(C, c, A, a, B, b, power, n, sa, sb) && Large(power, n) && r <= 1 && s <= 1 && k <= 1
    modifies C
    ensures Ready(C, c, A, a, B, b, power, n, sa, sb)
    ensures StepWrote(C[..], old(C[..]), c, power, n, sa, sb, r, s, k, true)
    decreases n, 0
  {
    hide Product, Wrote, Target, Clear, Window, Quad, Corner, Size, Pow2;
    ghost var w0, wa, wb := C[..], A[..], B[..];
    LargeHalf(power, n);
    QuarterInside(n, r, s);
    CornerIsQuarter(power, n, r, s);
    QuadReady(C, c, A, a, B, b, power, n, sa, sb, r, s, k);
    MatMulPar(A, a + Corner(power, n, r, k), B, b + Corner(power, n, k, s), C, c + Corner(power, n, r, s), n / 2,
              power, Quad(n, sa, r, k), Quad(n, sb, k, s));
    WindowQuad(w0, c, n, r, s);
    ghost var t := StepTarget(w0, c, power, n, sa, sb, r, s, k, true);
    StillHolds(C, c, n * n, w0, c + Corner(power, n, r, s), t, A, a, sa, wa);
    StillHolds(C, c, n * n, w0, c + Corner(power, n, r, s), t, B, b, sb, wb);
  }
}
