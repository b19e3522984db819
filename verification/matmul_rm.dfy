/**
 mat_mul_par_rm and iter_matmul_rm of matmul.cpp: row-major matrices, where a part of a matrix is a window
 whose rows are as far apart as the whole matrix is wide.
 */
module MatmulRowMajor {
  import opened Morton
  import opened BlockLayout
  import opened Matrices
  import opened ZMultiply

  /** A window of a row-major matrix: its first cell, and the distance between rows. */
  datatype View = View(s: seq<int>, at: nat, stride: nat) {
    predicate Fits(n: nat) {
      n <= stride && (n > 0 ==> at + (n - 1) * stride + n <= |s|)
    }

    function Cell(i: nat, j: nat): int
      requires at + i * stride + j < |s|
    {
      s[at + i * stride + j]
    }

    /** The window that starts dr rows down and dc columns across. */
    function Sub(dr: nat, dc: nat): View {
      View(s, at + dr * stride + dc, stride)
    }
  }

  lemma InView(v: View, n: nat, i: nat, j: nat)
    requires v.Fits(n) && i < n && j < n
    ensures v.at + i * v.stride + j < |v.s|
  {
    assert i * v.stride <= (n - 1) * v.stride;
  }

  /** Terms lo..hi of row i of a times column j of b. */
  function Terms(a: View, b: View, n: nat, i: nat, j: nat, lo: nat, hi: nat): int
    requires a.Fits(n) && b.Fits(n) && i < n && j < n && lo <= hi <= n
    decreases hi
  {
    if lo == hi then 0 else
      InView(a, n, i, hi - 1);
      InView(b, n, hi - 1, j);
      Terms(a, b, n, i, j, lo, hi - 1) + a.Cell(i, hi - 1) * b.Cell(hi - 1, j)
  }

  lemma {:induction false} TermsJoin(a: View, b: View, n: nat, i: nat, j: nat, lo: nat, mid: nat, hi: nat)
    requires a.Fits(n) && b.Fits(n) && i < n && j < n && lo <= mid <= hi <= n
    ensures Terms(a, b, n, i, j, lo, hi) == Terms(a, b, n, i, j, lo, mid) + Terms(a, b, n, i, j, mid, hi)
    decreases hi
  {
    if mid < hi {
      TermsJoin(a, b, n, i, j, lo, mid, hi - 1);
    }
  }

  lemma SubFits(v: View, n: nat, dr: nat, dc: nat, m: nat)
    requires v.Fits(n) && dr + m <= n && dc + m <= n
    ensures v.Sub(dr, dc).Fits(m)
  {
    if m > 0 {
      RowsInside(dr, m - 1, n - 1, v.stride);
    }
  }

  lemma RowsInside(p: nat, q: nat, n: nat, stride: nat)
    requires p + q <= n
    ensures p * stride + q * stride <= n * stride
  {
    assert n * stride - p * stride - q * stride == (n - p - q) * stride;
  }

  lemma SubCell(v: View, dr: nat, dc: nat, i: nat, j: nat)
    ensures v.Sub(dr, dc).at + i * v.stride + j == v.at + (dr + i) * v.stride + (dc + j)
  {
  }

  /** The terms of a product of sub-windows are terms of the product of the windows. */
  lemma {:induction false} SubTerms(a: View, b: View, n: nat, r: nat, c: nat, k: nat, m: nat, i: nat, j: nat, t: nat)
    requires a.Fits(n) && b.Fits(n) && r + m <= n && c + m <= n && k + m <= n && i < m && j < m && t <= m
    ensures a.Sub(r, k).Fits(m) && b.Sub(k, c).Fits(m)
    ensures Terms(a.Sub(r, k), b.Sub(k, c), m, i, j, 0, t) == Terms(a, b, n, r + i, c + j, k, k + t)
  {
    SubFits(a, n, r, k, m);
    SubFits(b, n, k, c, m);
    if t > 0 {
      SubTerms(a, b, n, r, c, k, m, i, j, t - 1);
      SubCell(a, r, k, i, t - 1);
      SubCell(b, k, c, t - 1, j);
      InView(a.Sub(r, k), m, i, t - 1);
      InView(b.Sub(k, c), m, t - 1, j);
    }
  }

  /** Cell y is in rows r..r + m and columns s..s + m of the window at c. */
  predicate InPart(y: int, c: nat, stride: nat, r: nat, s: nat, m: nat)
    requires stride > 0
  {
    y >= c && r <= Quot(y - c, stride) < r + m && s <= Rem(y - c, stride) < s + m
  }

  /** What cell y gains from terms k..k + m, if it is in the part. */
  function Gain(a: View, b: View, n: nat, c: nat, stride: nat, r: nat, s: nat, k: nat, m: nat, y: int): int
    requires stride > 0 && a.Fits(n) && b.Fits(n) && r + m <= n && s + m <= n && k + m <= n
  {
    if InPart(y, c, stride, r, s, m) then Terms(a, b, n, Quot(y - c, stride), Rem(y - c, stride), k, k + m) else 0
  }

  /** Every cell gained that much; in particular, cells outside the part are as before. */
  ghost predicate Gained(now: seq<int>, was: seq<int>, a: View, b: View, n: nat, c: nat, stride: nat, r: nat, s: nat, k: nat, m: nat)
    requires stride > 0 && a.Fits(n) && b.Fits(n) && r + m <= n && s + m <= n && k + m <= n
  {
    |now| == |was| && forall y :: 0 <= y < |was| ==> now[y] == was[y] + Gain(a, b, n, c, stride, r, s, k, m, y)
  }

  lemma SubGain(a: View, b: View, n: nat, c: nat, c': nat, stride: nat, r: nat, s: nat, k: nat, m: nat, y: int)
    requires 0 < n <= stride && a.Fits(n) && b.Fits(n) && r + m <= n && s + m <= n && k + m <= n && c' == c + r * stride + s
    requires a.Sub(r, k).Fits(m) && b.Sub(k, s).Fits(m)
    ensures Gain(a.Sub(r, k), b.Sub(k, s), m, c', stride, 0, 0, 0, m, y) == Gain(a, b, n, c, stride, r, s, k, m, y)
  {
    hide Terms, Quot, Rem, View.Fits, View.Sub;
    SamePlace(y, c, stride, n, r, s, m);
    if InPart(y, c', stride, 0, 0, m) {
      SubTerms(a, b, n, r, s, k, m, Quot(y - c', stride), Rem(y - c', stride), m);
    }
  }

  /** A sub-window's own product is a part of the whole window's. */
  lemma SubGained(now: seq<int>, was: seq<int>, a: View, b: View, n: nat, c: nat, c': nat, stride: nat, r: nat, s: nat, k: nat, m: nat)
    requires 0 < n <= stride && a.Fits(n) && b.Fits(n) && r + m <= n && s + m <= n && k + m <= n && c' == c + r * stride + s
    requires a.Sub(r, k).Fits(m) && b.Sub(k, s).Fits(m)
    requires Gained(now, was, a.Sub(r, k), b.Sub(k, s), m, c', stride, 0, 0, 0, m)
    ensures Gained(now, was, a, b, n, c, stride, r, s, k, m)
  {
    hide Gain, View.Fits, View.Sub;
    forall y | 0 <= y < |was| ensures now[y] == was[y] + Gain(a, b, n, c, stride, r, s, k, m, y) {
      SubGain(a, b, n, c, c', stride, r, s, k, m, y);
    }
  }

  lemma SamePlace(y: int, c: nat, stride: nat, n: nat, r: nat, s: nat, m: nat)
    requires 0 < n <= stride && r + m <= n && s + m <= n
    ensures var c' := c + r * stride + s;
      && (InPart(y, c', stride, 0, 0, m) <==> InPart(y, c, stride, r, s, m))
      && (InPart(y, c', stride, 0, 0, m) ==> Quot(y - c, stride) == r + Quot(y - c', stride) && Rem(y - c, stride) == s + Rem(y - c', stride))
  {
    hide Quot, Rem;
    var c' := c + r * stride + s;
    if InPart(y, c', stride, 0, 0, m) {
      FromPart(y - c', stride, r, s);
    } else if InPart(y, c, stride, r, s, m) {
      IntoPart(y - c, stride, r, s);
    }
  }

  lemma FromPart(z: nat, stride: nat, r: nat, s: nat)
    requires 0 < stride && Rem(z, stride) + s < stride
    ensures var w := z + r * stride + s; Quot(w, stride) == r + Quot(z, stride) && Rem(w, stride) == s + Rem(z, stride)
  {
    hide Quot, Rem;
    QuotRem(z, stride);
    AddRows(Quot(z, stride), r, stride);
    QuotIs(z + r * stride + s, r + Quot(z, stride), s + Rem(z, stride), stride);
  }

  lemma IntoPart(w: nat, stride: nat, r: nat, s: nat)
    requires 0 < stride && r <= Quot(w, stride) && s <= Rem(w, stride)
    ensures r * stride + s <= w
    ensures var z := w - (r * stride + s); Quot(z, stride) == Quot(w, stride) - r && Rem(z, stride) == Rem(w, stride) - s
  {
    hide Quot, Rem;
    QuotRem(w, stride);
    AddRows(Quot(w, stride) - r, r, stride);
    assert (Quot(w, stride) - r) * stride >= 0;
    QuotIs(w - (r * stride + s), Quot(w, stride) - r, Rem(w, stride) - s, stride);
  }

  lemma AddRows(q: nat, r: nat, stride: nat)
    ensures (r + q) * stride == r * stride + q * stride
  {
  }

  /** A whole window's gain is the sum of its eight parts' gains. */
  lemma EightParts(a: View, b: View, n: nat, c: nat, stride: nat, m: nat, y: int)
    requires n == 2 * m && 0 < n <= stride && a.Fits(n) && b.Fits(n)
    ensures Gain(a, b, n, c, stride, 0, 0, 0, n, y)
         == Gain(a, b, n, c, stride, 0, 0, 0, m, y) + Gain(a, b, n, c, stride, 0, m, 0, m, y)
            + Gain(a, b, n, c, stride, m, 0, 0, m, y) + Gain(a, b, n, c, stride, m, m, 0, m, y)
            + Gain(a, b, n, c, stride, 0, 0, m, m, y) + Gain(a, b, n, c, stride, 0, m, m, m, y)
            + Gain(a, b, n, c, stride, m, 0, m, m, y) + Gain(a, b, n, c, stride, m, m, m, m, y)
  {
    hide Terms, Quot, Rem;
    if InPart(y, c, stride, 0, 0, n) {
      TermsJoin(a, b, n, Quot(y - c, stride), Rem(y - c, stride), 0, m, n);
    }
  }

  // ---------------------------------------------------------------- the loops

  method RowTimesColumn(A: array<int>, a: nat, B: array<int>, b: nat, n: nat, stride: nat, i: nat, k: nat) returns (c: int)
    requires View(A[..], a, stride).Fits(n) && View(B[..], b, stride).Fits(n) && i < n && k < n
    ensures c == Terms(View(A[..], a, stride), View(B[..], b, stride), n, i, k, 0, n)
  {
    ghost var va, vb := View(A[..], a, stride), View(B[..], b, stride);
    c := 0;
    for j := 0 to n
      invariant c == Terms(va, vb, n, i, k, 0, j)
    {
      InView(va, n, i, j);
      InView(vb, n, j, k);
      c := c + A[a + i * stride + j] * B[b + j * stride + k];
    }
  }

  /** Cell y is in row i of the window, before column k, or in an earlier row. */
  predicate Visited(y: int, c: nat, stride: nat, n: nat, i: nat, k: nat)
    requires stride > 0
  {
    InPart(y, c, stride, 0, 0, n) && (Quot(y - c, stride) < i || (Quot(y - c, stride) == i && Rem(y - c, stride) < k))
  }

  /** The visited cells hold their row times their column, onto what was there if `add`. */
  ghost predicate SoFar(now: seq<int>, was: seq<int>, a: View, b: View, n: nat, c: nat, stride: nat, add: bool, i: nat, k: nat)
    requires stride > 0 && a.Fits(n) && b.Fits(n)
  {
    |now| == |was| && forall y :: 0 <= y < |was| ==>
      now[y] == if Visited(y, c, stride, n, i, k)
                then (if add then was[y] else 0) + Terms(a, b, n, Quot(y - c, stride), Rem(y - c, stride), 0, n)
                else was[y]
  }

  lemma VisitOne(now: seq<int>, was: seq<int>, a: View, b: View, n: nat, c: nat, stride: nat, add: bool, i: nat, k: nat, at: nat, v: int)
    requires 0 < n <= stride && a.Fits(n) && b.Fits(n) && i < n && k < n && c <= at < |now|
    requires Quot(at - c, stride) == i && Rem(at - c, stride) == k
    requires SoFar(now, was, a, b, n, c, stride, add, i, k)
    requires v == (if add then now[at] else 0) + Terms(a, b, n, i, k, 0, n)
    ensures SoFar(now[at := v], was, a, b, n, c, stride, add, i, k + 1)
  {
    hide Terms, Quot, Rem;
    forall y | 0 <= y < |was| && y != at ensures Visited(y, c, stride, n, i, k + 1) <==> Visited(y, c, stride, n, i, k) {
      if y >= c && Quot(y - c, stride) == i && Rem(y - c, stride) == k {
        SameCell(y - c, at - c, stride);
      }
    }
  }

  lemma SameCell(x: nat, y: nat, stride: nat)
    requires 0 < stride && Quot(x, stride) == Quot(y, stride) && Rem(x, stride) == Rem(y, stride)
    ensures x == y
  {
    QuotRem(x, stride);
    QuotRem(y, stride);
  }

  lemma VisitRow(now: seq<int>, was: seq<int>, a: View, b: View, n: nat, c: nat, stride: nat, add: bool, i: nat)
    requires 0 < n <= stride && a.Fits(n) && b.Fits(n) && i < n && SoFar(now, was, a, b, n, c, stride, add, i, n)
    ensures SoFar(now, was, a, b, n, c, stride, add, i + 1, 0)
  {
    hide Terms, Quot, Rem;
    assert forall y :: 0 <= y < |was| ==> (Visited(y, c, stride, n, i, n) <==> Visited(y, c, stride, n, i + 1, 0));
  }

  /** The loops over one window: C += A * B, or C = A * B. */
  method Loops(A: array<int>, a: nat, B: array<int>, b: nat, C: array<int>, c: nat, n: nat, stride: nat, add: bool)
    requires 0 < n <= stride && C != A && C != B
    requires View(A[..], a, stride).Fits(n) && View(B[..], b, stride).Fits(n) && View(C[..], c, stride).Fits(n)
    modifies C
    ensures SoFar(C[..], old(C[..]), View(A[..], a, stride), View(B[..], b, stride), n, c, stride, add, n, 0)
  {
    hide Terms, Quot, Rem;
    ghost var va, vb, was := View(A[..], a, stride), View(B[..], b, stride), C[..];
    for i := 0 to n
      invariant A[..] == va.s && B[..] == vb.s
      invariant SoFar(C[..], was, va, vb, n, c, stride, add, i, 0)
    {
      for k := 0 to n
        invariant A[..] == va.s && B[..] == vb.s
        invariant SoFar(C[..], was, va, vb, n, c, stride, add, i, k)
      {
        OneCell(A, a, B, b, C, c, n, stride, add, i, k, was);
      }
      VisitRow(C[..], was, va, vb, n, c, stride, add, i);
    }
  }

  method OneCell(A: array<int>, a: nat, B: array<int>, b: nat, C: array<int>, c: nat, n: nat, stride: nat, add: bool, i: nat, k: nat, ghost was: seq<int>)
    requires 0 < n <= stride && C != A && C != B && i < n && k < n && |was| == C.Length
    requires View(A[..], a, stride).Fits(n) && View(B[..], b, stride).Fits(n) && View(was, c, stride).Fits(n)
    requires SoFar(C[..], was, View(A[..], a, stride), View(B[..], b, stride), n, c, stride, add, i, k)
    modifies C
    ensures SoFar(C[..], was, View(A[..], a, stride), View(B[..], b, stride), n, c, stride, add, i, k + 1)
  {
    hide Terms, SoFar;
    ghost var now := C[..];
    InView(View(was, c, stride), n, i, k);
    var sum := RowTimesColumn(A, a, B, b, n, stride, i, k);
    if add {
      C[c + i * stride + k] := C[c + i * stride + k] + sum;
    } else {
      C[c + i * stride + k] := sum;
    }
    ghost var at := c + i * stride + k;
    assert C[..] == now[at := (if add then now[at] else 0) + sum];
    QuotIs(at - c, i, k, stride);
    VisitOne(now, was, View(A[..], a, stride), View(B[..], b, stride), n, c, stride, add, i, k, at, (if add then now[at] else 0) + sum);
  }

  /** The product of two whole row-major matrices, by definition. */
  method IterMatmulRm(A: array<int>, B: array<int>, C: array<int>, n: nat)
    requires n * n == A.Length == B.Length == C.Length && C != A && C != B && n > 0
    modifies C
    ensures View(A[..], 0, n).Fits(n) && View(B[..], 0, n).Fits(n)
    ensures forall y :: 0 <= y < C.Length ==> Quot(y, n) < n && C[y] == Terms(View(A[..], 0, n), View(B[..], 0, n), n, Quot(y, n), Rem(y, n), 0, n)
  {
    hide Terms, Quot, Rem;
    WholeFits(n);
    Loops(A, 0, B, 0, C, 0, n, n, false);
    forall y | 0 <= y < n * n ensures Quot(y, n) < n {
      QuotBelow(y, n, n);
    }
  }

  lemma WholeFits(n: nat)
    requires n > 0
    ensures (n - 1) * n + n == n * n
  {
  }

  /** C += A * B on windows of row-major matrices that are origN wide: exactly the n x n cells of C's window
      gain exactly the product. */
  method MatMulParRm(A: array<int>, a: nat, B: array<int>, b: nat, C: array<int>, c: nat, n: nat, origN: nat, power: nat)
    requires Size(power, n) && 0 < n <= origN && C != A && C != B
    requires View(A[..], a, origN).Fits(n) && View(B[..], b, origN).Fits(n) && View(C[..], c, origN).Fits(n)
    modifies C
    ensures Gained(C[..], old(C[..]), View(A[..], a, origN), View(B[..], b, origN), n, c, origN, 0, 0, 0, n)
    decreases n, 2
  {
    hide Gained, SoFar, Pow2, Size;
    if n == Pow2(power) {
      Loops(A, a, B, b, C, c, n, origN, true);
      LoopsGain(C[..], old(C[..]), View(A[..], a, origN), View(B[..], b, origN), n, c, origN);
    } else {
      AboveABlock(power, n);
      EightCalls(A, a, B, b, C, c, n, origN, power);
    }
  }

  lemma LoopsGain(now: seq<int>, was: seq<int>, a: View, b: View, n: nat, c: nat, stride: nat)
    requires 0 < n <= stride && a.Fits(n) && b.Fits(n) && SoFar(now, was, a, b, n, c, stride, true, n, 0)
    ensures Gained(now, was, a, b, n, c, stride, 0, 0, 0, n)
  {
    hide Terms, Quot, Rem;
    assert forall y :: 0 <= y < |was| ==> (Visited(y, c, stride, n, n, 0) <==> InPart(y, c, stride, 0, 0, n));
  }

  /** Where the parts of a window start: &A[0], &A[n >> 1], &A[(n * orig_n) >> 1], &A[((n * orig_n) + n) >> 1]. */
  function PartAt(at: nat, n: nat, origN: nat, r: nat, s: nat): (off: nat)
    requires r <= 1 && s <= 1
  {
    if r == 0 then at + (if s == 0 then 0 else n / 2) else at + (if s == 0 then n * origN / 2 else (n * origN + n) / 2)
  }

  lemma PartIsSub(v: View, n: nat, r: nat, s: nat)
    requires n % 2 == 0 && r <= 1 && s <= 1
    ensures PartAt(v.at, n, v.stride, r, s) == v.Sub(r * (n / 2), s * (n / 2)).at
  {
    assert n * v.stride == 2 * (n / 2 * v.stride);
    assert n * v.stride + n == 2 * (n / 2 * v.stride + n / 2);
  }

  /** The part of the window that a recursive call works on gains half its terms. */
  ghost predicate PartGained(now: seq<int>, was: seq<int>, a: View, b: View, n: nat, c: nat, stride: nat, r: nat, s: nat, k: nat)
    requires stride > 0 && a.Fits(n) && b.Fits(n) && r <= 1 && s <= 1 && k <= 1
  {
    PartFits(n, r);
    PartFits(n, s);
    PartFits(n, k);
    Gained(now, was, a, b, n, c, stride, r * (n / 2), s * (n / 2), k * (n / 2), n / 2)
  }

  lemma PartFits(n: nat, r: nat)
    requires r <= 1
    ensures r * (n / 2) + n / 2 <= n
  {
  }

  method OneCall(A: array<int>, a: nat, B: array<int>, b: nat, C: array<int>, c: nat, n: nat, origN: nat, power: nat, r: nat, s: nat, k: nat)
    requires Large(power, n) && 0 < n <= origN && C != A && C != B && r <= 1 && s <= 1 && k <= 1
    requires View(A[..], a, origN).Fits(n) && View(B[..], b, origN).Fits(n) && View(C[..], c, origN).Fits(n)
    modifies C
    ensures PartGained(C[..], old(C[..]), View(A[..], a, origN), View(B[..], b, origN), n, c, origN, r, s, k)
    decreases n, 0
  {
    hide Gained, Size, Pow2, PartAt, View.Fits;
    LargeHalf(power, n);
    ghost var va, vb, vc, m, was := View(A[..], a, origN), View(B[..], b, origN), View(C[..], c, origN), n / 2, C[..];
    PartFits(n, r);
    PartFits(n, s);
    PartFits(n, k);
    PartIsSub(va, n, r, k);
    PartIsSub(vb, n, k, s);
    PartIsSub(vc, n, r, s);
    SubFits(va, n, r * m, k * m, m);
    SubFits(vb, n, k * m, s * m, m);
    SubFits(vc, n, r * m, s * m, m);
    MatMulParRm(A, PartAt(a, n, origN, r, k), B, PartAt(b, n, origN, k, s), C, PartAt(c, n, origN, r, s), n / 2, origN, power);
    SubGained(C[..], was, va, vb, n, c, PartAt(c, n, origN, r, s), origN, r * m, s * m, k * m, m);
  }

  lemma EightGains(w: seq<seq<int>>, a: View, b: View, n: nat, c: nat, stride: nat)
    requires n % 2 == 0 && 0 < n <= stride && a.Fits(n) && b.Fits(n) && |w| == 9
    requires PartGained(w[1], w[0], a, b, n, c, stride, 0, 0, 0) && PartGained(w[2], w[1], a, b, n, c, stride, 0, 1, 0)
    requires PartGained(w[3], w[2], a, b, n, c, stride, 1, 0, 0) && PartGained(w[4], w[3], a, b, n, c, stride, 1, 1, 0)
    requires PartGained(w[5], w[4], a, b, n, c, stride, 0, 0, 1) && PartGained(w[6], w[5], a, b, n, c, stride, 0, 1, 1)
    requires PartGained(w[7], w[6], a, b, n, c, stride, 1, 0, 1) && PartGained(w[8], w[7], a, b, n, c, stride, 1, 1, 1)
    ensures Gained(w[8], w[0], a, b, n, c, stride, 0, 0, 0, n)
  {
    hide Gain;
    forall y | 0 <= y < |w[0]| ensures w[8][y] == w[0][y] + Gain(a, b, n, c, stride, 0, 0, 0, n, y) {
      EightParts(a, b, n, c, stride, n / 2, y);
    }
  }

  /** Above the base case: four calls, a sync, four calls, a sync. */
  method EightCalls(A: array<int>, a: nat, B: array<int>, b: nat, C: array<int>, c: nat, n: nat, origN: nat, power: nat)
    requires Large(power, n) && 0 < n <= origN && C != A && C != B
    requires View(A[..], a, origN).Fits(n) && View(B[..], b, origN).Fits(n) && View(C[..], c, origN).Fits(n)
    modifies C
    ensures Gained(C[..], old(C[..]), View(A[..], a, origN), View(B[..], b, origN), n, c, origN, 0, 0, 0, n)
    decreases n, 1
  {
    hide Gained, PartGained, Large;
    ghost var w := [C[..]];
    OneCall(A, a, B, b, C, c, n, origN, power, 0, 0, 0);
    w := w + [C[..]];
    OneCall(A, a, B, b, C, c, n, origN, power, 0, 1, 0);
    w := w + [C[..]];
    OneCall(A, a, B, b, C, c, n, origN, power, 1, 0, 0);
    w := w + [C[..]];
    OneCall(A, a, B, b, C, c, n, origN, power, 1, 1, 0);
    w := w + [C[..]];
    OneCall(A, a, B, b, C, c, n, origN, power, 0, 0, 1);
    w := w + [C[..]];
    OneCall(A, a, B, b, C, c, n, origN, power, 0, 1, 1);
    w := w + [C[..]];
    OneCall(A, a, B, b, C, c, n, origN, power, 1, 0, 1);
    w := w + [C[..]];
    OneCall(A, a, B, b, C, c, n, origN, power, 1, 1, 1);
    w := w + [C[..]];
    LargeHalf(power, n);
    EightGains(w, View(A[..], a, origN), View(B[..], b, origN), n, c, origN);
  }
}
