/**
 mm_base and mm_additive_base of strassen.cpp: the product of two row-major blocks, eight columns at a
 time, walking three pointers.  A pointer is an index into its array.
 */
module BaseCase {
  import opened BlockLayout

  /** The first k terms of row i of a times column j of b, both row-major and n wide. */
  function RowDot(n: nat, a: seq<int>, b: seq<int>, i: nat, j: nat, k: nat): int
    requires |a| == |b| == n * n && i < n && j < n && k <= n
  {
    if k == 0 then 0 else
      Inside(i, k - 1, n);
      Inside(k - 1, j, n);
      RowDot(n, a, b, i, j, k - 1) + a[i * n + (k - 1)] * b[(k - 1) * n + j]
  }

  lemma Inside(i: nat, j: nat, n: nat)
    requires i < n && j < n
    ensures 0 <= i * n + j < n * n && i * n + n <= n * n
  {
    assert (i + 1) * n <= n * n;
  }

  /** The two arrays are different, or the two stretches of one array do not overlap. */
  predicate Clear(p: array<int>, at: nat, q: array<int>, from: nat, len: nat) {
    p != q || at + len <= from || from + len <= at
  }

  /** The block at `at` is s. */
  ghost predicate Holds(p: array<int>, at: nat, s: seq<int>)
    reads p
  {
    at + |s| <= p.Length && forall x :: 0 <= x < |s| ==> p[at + x] == s[x]
  }

  /** Eight columns of one row: the loop over j.  It starts from `start` and takes the row from its
      first element to its end; the pointer into B stops at the last row. */
  method EightColumns(A: array<int>, ptrToA_: nat, B: array<int>, b: nat, n: nat, row: nat, col: nat, start: seq<int>,
                      ghost sa: seq<int>, ghost sb: seq<int>, ghost a: nat)
    returns (c: seq<int>, ptrToA: nat, ptrToB: nat)
    requires |sa| == |sb| == n * n && Holds(A, a, sa) && Holds(B, b, sb) && |start| == 8
    requires row < n && col + 8 <= n && ptrToA_ == a + row * n
    ensures Along(c, start, n, sa, sb, row, col, n)
    ensures ptrToA == a + row * n + n && ptrToB == b + n * (n - 1)
  {
    ptrToA, ptrToB := ptrToA_, b;
    Inside(row, 0, n);
    Inside(0, col + 7, n);
    var valA := A[ptrToA];
    ptrToA := ptrToA + 1;
    c := AddEight(start, valA, B, ptrToB + col);
    forall t: nat | t < 8 ensures c[t] == start[t] + RowDot(n, sa, sb, row, col + t, 1) {
      FirstTerm(n, sa, sb, row, col + t);
    }
    var j := 1;
    while j < n
      invariant 1 <= j <= n
      invariant ptrToA == a + row * n + j && ptrToB == b + (j - 1) * n
      invariant Along(c, start, n, sa, sb, row, col, j)
    {
      Inside(row, j, n);
      Inside(j, col + 7, n);
      NextRow(j, n);
      ptrToB := ptrToB + n;
      valA := A[ptrToA];
      ptrToA := ptrToA + 1;
      c := AddEight(c, valA, B, ptrToB + col);
      forall t: nat | t < 8 ensures c[t] == start[t] + RowDot(n, sa, sb, row, col + t, j + 1) {
        Inside(j, col + t, n);
        assert B[ptrToB + col + t] == sb[j * n + (col + t)];
      }
      j := j + 1;
    }
  }

  lemma NextRow(j: nat, n: nat)
    requires 1 <= j
    ensures (j - 1) * n + n == j * n
  {
  }

  lemma FirstTerm(n: nat, sa: seq<int>, sb: seq<int>, row: nat, col: nat)
    requires |sa| == |sb| == n * n && row < n && col < n
    ensures row * n < n * n && col < n * n
    ensures RowDot(n, sa, sb, row, col, 1) == sa[row * n] * sb[col]
  {
    Inside(row, 0, n);
    Inside(0, col, n);
    assert RowDot(n, sa, sb, row, col, 0) == 0;
    assert 0 * n + col == col;
  }

  /** Eight sums, each k terms along. */
  ghost predicate Along(c: seq<int>, start: seq<int>, n: nat, sa: seq<int>, sb: seq<int>, row: nat, col: nat, k: nat)
    requires |start| == 8 && |sa| == |sb| == n * n && row < n && col + 8 <= n && k <= n
  {
    |c| == 8 && forall t: nat :: t < 8 ==> c[t] == start[t] + RowDot(n, sa, sb, row, col + t, k)
  }

  /** One element of A times eight neighbouring elements of B, added to the eight sums. */
  method AddEight(c: seq<int>, valA: int, B: array<int>, at: nat) returns (r: seq<int>)
    requires |c| == 8 && at + 8 <= B.Length
    ensures |r| == 8 && forall t :: 0 <= t < 8 ==> r[t] == c[t] + valA * B[at + t]
  {
    r := [c[0] + valA * B[at], c[1] + valA * B[at + 1], c[2] + valA * B[at + 2], c[3] + valA * B[at + 3],
          c[4] + valA * B[at + 4], c[5] + valA * B[at + 5], c[6] + valA * B[at + 6], c[7] + valA * B[at + 7]];
  }

  method StoreEight(C: array<int>, at: nat, c: seq<int>)
    requires |c| == 8 && at + 8 <= C.Length
    modifies C
    ensures forall x :: 0 <= x < C.Length ==> C[x] == if at <= x < at + 8 then c[x - at] else old(C[x])
  {
    C[at] := c[0];
    C[at + 1] := c[1];
    C[at + 2] := c[2];
    C[at + 3] := c[3];
    C[at + 4] := c[4];
    C[at + 5] := c[5];
    C[at + 6] := c[6];
    C[at + 7] := c[7];
  }

  /** What the kernels compute for cell x of a block: its row times its column. */
  function CellAt(n: nat, a: seq<int>, b: seq<int>, x: nat): int
    requires |a| == |b| == n * n && x < n * n && n > 0
  {
    RowCol(x, n);
    RowDot(n, a, b, Quot(x, n), Rem(x, n), n)
  }

  lemma RowCol(x: nat, n: nat)
    requires n > 0 && x < n * n
    ensures Quot(x, n) < n
  {
    hide Quot;
    QuotBelow(x, n, n);
  }

  /** The first w cells of the block at c are computed, onto what was there if `add`; nothing else changed. */
  ghost predicate Computed(now: seq<int>, was: seq<int>, c: nat, w: nat, add: bool, n: nat, sa: seq<int>, sb: seq<int>)
    requires n > 0 && |sa| == |sb| == n * n
  {
    && w <= n * n && c + n * n <= |was| == |now|
    && forall x :: 0 <= x < |was| ==>
         now[x] == if c <= x < c + w then (if add then was[x] else 0) + CellAt(n, sa, sb, x - c) else was[x]
  }

  lemma NothingYet(was: seq<int>, c: nat, add: bool, n: nat, sa: seq<int>, sb: seq<int>)
    requires n > 0 && |sa| == |sb| == n * n && c + n * n <= |was|
    ensures Computed(was, was, c, 0, add, n, sa, sb)
  {
  }

  lemma EightMore(now: seq<int>, next: seq<int>, was: seq<int>, c: nat, add: bool, n: nat, sa: seq<int>, sb: seq<int>,
                  row: nat, col: nat, at: nat, start: seq<int>, v: seq<int>)
    requires |sa| == |sb| == n * n && row < n && col + 8 <= n && at == c + row * n + col && row * n + col + 8 <= n * n
    requires Computed(now, was, c, row * n + col, add, n, sa, sb) && |start| == 8 && Along(v, start, n, sa, sb, row, col, n)
    requires at + 8 <= |now| && start == if add then now[at..at + 8] else [0, 0, 0, 0, 0, 0, 0, 0]
    requires |next| == |now| && forall x :: 0 <= x < |now| ==> next[x] == if at <= x < at + 8 then v[x - at] else now[x]
    ensures Computed(next, was, c, row * n + col + 8, add, n, sa, sb)
  {
    hide RowDot, Quot, Rem;
    forall x | at <= x < at + 8 ensures next[x] == (if add then was[x] else 0) + CellAt(n, sa, sb, x - c) {
      var t := x - at;
      QuotIs(x - c, row, col + t, n);
      assert v[t] == start[t] + RowDot(n, sa, sb, row, col + t, n);
      assert start[t] == if add then now[x] else 0;
    }
  }

  /** Row `row` starts `at` cells into its block, the operands are in place, and the output is apart from them. */
  ghost predicate RowReady(C: array<int>, c: nat, A: array<int>, a: nat, B: array<int>, b: nat, n: nat, row: nat, at: nat,
                           sa: seq<int>, sb: seq<int>)
    reads C, A, B
  {
    && |sa| == |sb| == n * n && row < n && at == row * n && at + n <= n * n && c + n * n <= C.Length
    && Holds(A, a, sa) && Holds(B, b, sb) && Clear(C, c, A, a, n * n) && Clear(C, c, B, b, n * n)
  }

  /** Eight columns of one row: the sums start from C's own cells or from zero.  The pointer into A comes
      back to the beginning of the row. */
  method EightOfRow(C: array<int>, c: nat, ptrToC: nat, A: array<int>, a: nat, ptrToA_: nat, B: array<int>, b: nat, n: nat, row: nat, col: nat,
                    add: bool, ghost was: seq<int>, ghost sa: seq<int>, ghost sb: seq<int>, ghost at: nat)
    returns (ptrToA: nat)
    requires RowReady(C, c, A, a, B, b, n, row, at, sa, sb) && col + 8 <= n && ptrToA_ == a + at && ptrToC == c + at + col
    requires |sa| == |sb| == n * n && Computed(C[..], was, c, at + col, add, n, sa, sb)
    modifies C
    ensures ptrToA == a + at && RowReady(C, c, A, a, B, b, n, row, at, sa, sb)
    ensures Computed(C[..], was, c, at + col + 8, add, n, sa, sb)
  {
    hide RowDot, Computed, Along, CellAt;
    var start := if add then C[ptrToC..ptrToC + 8] else [0, 0, 0, 0, 0, 0, 0, 0];
    var sums, endA, endB := EightColumns(A, ptrToA_, B, b, n, row, col, start, sa, sb, a);
    assert endA == a + at + n && endB == b + n * (n - 1);   // the end of the row, the bottom row
    ptrToA := endA - n;
    ghost var now := C[..];
    StoreEight(C, ptrToC, sums);
    EightMore(now, C[..], was, c, add, n, sa, sb, row, col, ptrToC, start, sums);
  }

  /** The loop over the columns of one row, eight at a time; the pointer into C ends at the row's end. */
  method OneRow(C: array<int>, c: nat, ptrToC_: nat, A: array<int>, a: nat, ptrToA_: nat, B: array<int>, b: nat, n: nat, row: nat,
                add: bool, ghost was: seq<int>, ghost sa: seq<int>, ghost sb: seq<int>, ghost at: nat)
    returns (ptrToC: nat, ptrToA: nat)
    requires n % 8 == 0 && RowReady(C, c, A, a, B, b, n, row, at, sa, sb) && ptrToA_ == a + at && ptrToC_ == c + at
    requires n > 0 && |sa| == |sb| == n * n && Computed(C[..], was, c, at, add, n, sa, sb)
    modifies C
    ensures ptrToC == c + at + n && ptrToA == a + at && RowReady(C, c, A, a, B, b, n, row, at, sa, sb)
    ensures Computed(C[..], was, c, at + n, add, n, sa, sb)
  {
    hide Computed, RowReady;
    ptrToC, ptrToA := ptrToC_, ptrToA_;
    var col := 0;
    while col < n
      invariant 0 <= col <= n && col % 8 == 0
      invariant ptrToA == a + at && ptrToC == c + at + col
      invariant RowReady(C, c, A, a, B, b, n, row, at, sa, sb)
      invariant Computed(C[..], was, c, at + col, add, n, sa, sb)
    {
      ptrToA := EightOfRow(C, c, ptrToC, A, a, ptrToA, B, b, n, row, col, add, was, sa, sb, at);
      ptrToC := ptrToC + 8;
      col := col + 8;
    }
  }

  /** C := A * B for one block. */
  method MmBase(C: array<int>, c: nat, A: array<int>, a: nat, B: array<int>, b: nat, n: nat, ghost sa: seq<int>, ghost sb: seq<int>)
    requires n > 0 && n % 8 == 0 && |sa| == |sb| == n * n && c + n * n <= C.Length
    requires Holds(A, a, sa) && Holds(B, b, sb) && Clear(C, c, A, a, n * n) && Clear(C, c, B, b, n * n)
    modifies C
    ensures Computed(C[..], old(C[..]), c, n * n, false, n, sa, sb)
  {
    AllRows(C, c, A, a, B, b, n, false, sa, sb);
  }

  /** C := C + A * B for one block. */
  method MmAdditiveBase(C: array<int>, c: nat, A: array<int>, a: nat, B: array<int>, b: nat, n: nat, ghost sa: seq<int>, ghost sb: seq<int>)
    requires n > 0 && n % 8 == 0 && |sa| == |sb| == n * n && c + n * n <= C.Length
    requires Holds(A, a, sa) && Holds(B, b, sb) && Clear(C, c, A, a, n * n) && Clear(C, c, B, b, n * n)
    modifies C
    ensures Computed(C[..], old(C[..]), c, n * n, true, n, sa, sb)
  {
    AllRows(C, c, A, a, B, b, n, true, sa, sb);
  }

  /** The loop over the rows, which mm_base and mm_additive_base have in common. */
  method AllRows(C: array<int>, c: nat, A: array<int>, a: nat, B: array<int>, b: nat, n: nat, add: bool, ghost sa: seq<int>, ghost sb: seq<int>)
    requires n > 0 && n % 8 == 0 && |sa| == |sb| == n * n && c + n * n <= C.Length
    requires Holds(A, a, sa) && Holds(B, b, sb) && Clear(C, c, A, a, n * n) && Clear(C, c, B, b, n * n)
    modifies C
    ensures Computed(C[..], old(C[..]), c, n * n, add, n, sa, sb)
  {
    hide RowDot, Computed, Along, CellAt, Holds, Clear;
    var ptrToA, ptrToC := a, c;
    ghost var was, at := C[..], 0;
    NothingYet(was, c, add, n, sa, sb);
    var row := 0;
    while row < n
      invariant 0 <= row <= n && at == row * n && ptrToA == a + at && ptrToC == c + at
      invariant Holds(A, a, sa) && Holds(B, b, sb)
      invariant Computed(C[..], was, c, at, add, n, sa, sb)
    {
      Inside(row, 0, n);
      ptrToC, ptrToA := OneRow(C, c, ptrToC, A, a, ptrToA, B, b, n, row, add, was, sa, sb, at);
      assert ptrToC == c + at + n;
      ptrToA := ptrToA + n;
      NextRow(row + 1, n);
      at := at + n;
      row := row + 1;
    }
  }
}
