/**
 mm_dac_z of strassen.cpp: divide and conquer on the Z-order layout.  A spawned call runs where it is
 spawned; `matrix_tasks.dfy` shows that every other schedule gives the same result.
 */
module ZMultiply {
  import opened Morton
  import opened BlockLayout
  import opened Matrices
  import opened BaseCase

  // ---------------------------------------------------------------- one block

  lemma {:induction false} BlockDot(power: nat, n: nat, a: seq<int>, b: seq<int>, i: nat, j: nat, k: nat)
    requires n == Pow2(power) && |a| == |b| == n * n && i < n && j < n && k <= n
    ensures Size(power, n) && RowDot(n, a, b, i, j, k) == Dot(power, n, a, b, i, j, k)
  {
    hide Index, Pow2;
    if k > 0 {
      BlockDot(power, n, a, b, i, j, k - 1);
      OneBlock(power, i, k - 1);
      OneBlock(power, k - 1, j);
      Inside(i, k - 1, n);
      Inside(k - 1, j, n);
    }
  }

  /** Inside one block a position's row and column are quotient and remainder. */
  lemma BlockPlace(power: nat, n: nat, x: nat)
    requires n == Pow2(power) && x < n * n
    ensures Quot(x, n) < n && RowAt(power, x) == Quot(x, n) && ColAt(power, x) == Rem(x, n)
  {
    hide Index, RowAt, ColAt, Quot, Rem, Pow2;
    RowCol(x, n);
    QuotRem(x, n);
    OneBlock(power, Quot(x, n), Rem(x, n));
    IndexThere(power, Quot(x, n), Rem(x, n));
  }

  lemma BlockProduct(power: nat, n: nat, a: seq<int>, b: seq<int>, x: nat)
    requires n == Pow2(power) && |a| == |b| == n * n && x < n * n
    ensures Size(power, n) && CellAt(n, a, b, x) == Product(power, n, a, b)[x]
  {
    hide RowAt, ColAt, Quot, Rem, Pow2, Dot, RowDot;
    BlockPlace(power, n, x);
    BlockDot(power, n, a, b, Quot(x, n), Rem(x, n), n);
  }

  // ---------------------------------------------------------------- windows

  /** now is was with s written at `at`. */
  ghost predicate Wrote(now: seq<int>, was: seq<int>, at: nat, s: seq<int>) {
    && |now| == |was| && at + |s| <= |was|
    && forall x :: 0 <= x < |was| ==> now[x] == if at <= x < at + |s| then s[x - at] else was[x]
  }

  function Window(s: seq<int>, at: nat, len: nat): (w: seq<int>)
    requires at + len <= |s|
    ensures |w| == len
  {
    s[at..at + len]
  }

  /** What ends up in the output: the product, onto what was there if `add`. */
  function Target(add: bool, w: seq<int>, p: seq<int>): (r: seq<int>)
    requires |w| == |p|
    ensures |r| == |p|
  {
    if add then Add(w, p) else p
  }

  lemma ComputedWrote(now: seq<int>, was: seq<int>, c: nat, add: bool, power: nat, n: nat, sa: seq<int>, sb: seq<int>)
    requires n == Pow2(power) && |sa| == |sb| == n * n && Computed(now, was, c, n * n, add, n, sa, sb)
    ensures Size(power, n) && c + n * n <= |was|
    ensures Wrote(now, was, c, Target(add, Window(was, c, n * n), Product(power, n, sa, sb)))
  {
    hide Product, CellAt, Pow2;
    var s := Target(add, Window(was, c, n * n), Product(power, n, sa, sb));
    forall x | c <= x < c + n * n ensures now[x] == s[x - c] {
      BlockProduct(power, n, sa, sb, x - c);
    }
  }

  /** The offset of quadrant (r, c), as Z_PARTITION finds it. */
  function Corner(power: nat, n: nat, r: nat, c: nat): (off: nat)
    requires n <= MAX_N && r <= 1 && c <= 1
  {
    BlockConvert(power, if r == 1 then n / 2 else 0, if c == 1 then n / 2 else 0)
  }

  lemma CornerIsQuarter(power: nat, n: nat, r: nat, c: nat)
    requires Large(power, n) && n <= MAX_N && r <= 1 && c <= 1
    ensures Corner(power, n, r, c) == (2 * r + c) * (n / 2 * (n / 2))
  {
    hide Index, BlockConvert, Size, Pow2;
    LargeHalf(power, n);
    BlockConvertQuadrant(power, n, 0, 0, r, c);
    BlockConvertIsIndex(power, 0, 0);
    OneBlock(power, 0, 0);
  }

  lemma HoldsQuad(p: array<int>, at: nat, n: nat, s: seq<int>, r: nat, c: nat)
    requires n % 2 == 0 && |s| == n * n && r <= 1 && c <= 1 && Holds(p, at, s)
    ensures Holds(p, at + (2 * r + c) * (n / 2 * (n / 2)), Quad(n, s, r, c))
  {
    FourQuarters(n);
  }

  lemma QuarterInside(n: nat, r: nat, c: nat)
    requires n % 2 == 0 && r <= 1 && c <= 1
    ensures (2 * r + c) * (n / 2 * (n / 2)) + n / 2 * (n / 2) <= n * n
  {
    FourQuarters(n);
  }

  /** Four quarters written one after the other. */
  lemma FourWrites(w0: seq<int>, w1: seq<int>, w2: seq<int>, w3: seq<int>, w4: seq<int>, c: nat, mm: nat,
                   s0: seq<int>, s1: seq<int>, s2: seq<int>, s3: seq<int>)
    requires |s0| == |s1| == |s2| == |s3| == mm
    requires Wrote(w1, w0, c, s0) && Wrote(w2, w1, c + mm, s1) && Wrote(w3, w2, c + 2 * mm, s2) && Wrote(w4, w3, c + 3 * mm, s3)
    ensures Wrote(w4, w0, c, s0 + s1 + s2 + s3)
  {
  }

  // ---------------------------------------------------------------- divide and conquer

  /** The k-th product of quadrant (r, c): A(r, k) * B(k, c). */
  ghost function Partial(power: nat, n: nat, sa: seq<int>, sb: seq<int>, r: nat, c: nat, k: nat): (p: seq<int>)
    requires Large(power, n) && |sa| == |sb| == n * n && r <= 1 && c <= 1 && k <= 1
    ensures n % 2 == 0 && |p| == n / 2 * (n / 2)
  {
    LargeHalf(power, n);
    Product(power, n / 2, Quad(n, sa, r, k), Quad(n, sb, k, c))
  }

  /** The four quadrants after one round. */
  ghost function RoundTarget(power: nat, n: nat, w: seq<int>, sa: seq<int>, sb: seq<int>, k: nat, add: bool): (r: seq<int>)
    requires Large(power, n) && |w| == |sa| == |sb| == n * n && k <= 1
    ensures |r| == n * n
  {
    LargeHalf(power, n);
    Target(add, Quad(n, w, 0, 0), Partial(power, n, sa, sb, 0, 0, k)) + Target(add, Quad(n, w, 0, 1), Partial(power, n, sa, sb, 0, 1, k))
    + Target(add, Quad(n, w, 1, 0), Partial(power, n, sa, sb, 1, 0, k)) + Target(add, Quad(n, w, 1, 1), Partial(power, n, sa, sb, 1, 1, k))
  }

  lemma QuadOfFour(n: nat, s0: seq<int>, s1: seq<int>, s2: seq<int>, s3: seq<int>)
    requires n % 2 == 0 && |s0| == |s1| == |s2| == |s3| == n / 2 * (n / 2)
    ensures var s := s0 + s1 + s2 + s3;
      |s| == n * n && Quad(n, s, 0, 0) == s0 && Quad(n, s, 0, 1) == s1 && Quad(n, s, 1, 0) == s2 && Quad(n, s, 1, 1) == s3
  {
    FourQuarters(n);
  }

  lemma QuadTarget(power: nat, n: nat, add: bool, w: seq<int>, p: seq<int>, r: nat, c: nat)
    requires n % 2 == 0 && |w| == |p| == n * n && r <= 1 && c <= 1
    ensures Quad(n, Target(add, w, p), r, c) == Target(add, Quad(n, w, r, c), Quad(n, p, r, c))
  {
    FourQuarters(n);
  }

  lemma AddTwice(add: bool, w: seq<int>, p: seq<int>, q: seq<int>)
    requires |w| == |p| == |q|
    ensures Target(true, Target(add, w, p), q) == Target(add, w, Add(p, q))
  {
  }

  /** The two rounds together make the whole product. */
  lemma TwoRounds(power: nat, n: nat, w: seq<int>, sa: seq<int>, sb: seq<int>, add: bool)
    requires Large(power, n) && |w| == |sa| == |sb| == n * n
    ensures RoundTarget(power, n, RoundTarget(power, n, w, sa, sb, 0, add), sa, sb, 1, true)
         == Target(add, w, Product(power, n, sa, sb))
  {
    hide Size, Pow2, Product, Target, Quad, Add;
    LargeHalf(power, n);
    var w1 := RoundTarget(power, n, w, sa, sb, 0, add);
    var w2 := RoundTarget(power, n, w1, sa, sb, 1, true);
    var t := Target(add, w, Product(power, n, sa, sb));
    RoundQuads(power, n, w, sa, sb, 0, add);
    RoundQuads(power, n, w1, sa, sb, 1, true);
    forall r: nat, c: nat | r <= 1 && c <= 1 ensures Quad(n, w2, r, c) == Quad(n, t, r, c) {
      QuadTarget(power, n, add, w, Product(power, n, sa, sb), r, c);
      ProductQuadrant(power, n, sa, sb, r, c);
      AddTwice(add, Quad(n, w, r, c), Partial(power, n, sa, sb, r, c, 0), Partial(power, n, sa, sb, r, c, 1));
    }
    SameQuads(n, w2, t);
  }

  lemma RoundQuads(power: nat, n: nat, w: seq<int>, sa: seq<int>, sb: seq<int>, k: nat, add: bool)
    requires Large(power, n) && |w| == |sa| == |sb| == n * n && k <= 1
    ensures n % 2 == 0 && forall r: nat, c: nat :: r <= 1 && c <= 1 ==>
      Quad(n, RoundTarget(power, n, w, sa, sb, k, add), r, c) == Target(add, Quad(n, w, r, c), Partial(power, n, sa, sb, r, c, k))
  {
    hide Size, Pow2, Product, Target, Quad, Partial;
    LargeHalf(power, n);
    QuadOfFour(n, Target(add, Quad(n, w, 0, 0), Partial(power, n, sa, sb, 0, 0, k)), Target(add, Quad(n, w, 0, 1), Partial(power, n, sa, sb, 0, 1, k)),
               Target(add, Quad(n, w, 1, 0), Partial(power, n, sa, sb, 1, 0, k)), Target(add, Quad(n, w, 1, 1), Partial(power, n, sa, sb, 1, 1, k)));
    forall r: nat, c: nat | r <= 1 && c <= 1
      ensures Quad(n, RoundTarget(power, n, w, sa, sb, k, add), r, c) == Target(add, Quad(n, w, r, c), Partial(power, n, sa, sb, r, c, k)) {
      if r == 0 { if c == 0 {} else { assert c == 1; } } else { assert r == 1; if c == 0 {} else { assert c == 1; } }
    }
  }

  /** The operands are in place and apart from the output. */
  ghost predicate Ready(C: array<int>, c: nat, A: array<int>, a: nat, B: array<int>, b: nat, power: nat, n: nat, sa: seq<int>, sb: seq<int>)
    reads C, A, B
  {
    && Size(power, n) && n <= MAX_N && |sa| == |sb| == n * n && c + n * n <= C.Length
    && Holds(A, a, sa) && Holds(B, b, sb) && Clear(C, c, A, a, n * n) && Clear(C, c, B, b, n * n)
  }

  /** So are those of every recursive call. */
  lemma QuadReady(C: array<int>, c: nat, A: array<int>, a: nat, B: array<int>, b: nat, power: nat, n: nat, sa: seq<int>, sb: seq<int>,
                  r: nat, s: nat, k: nat)
    requires Ready(C, c, A, a, B, b, power, n, sa, sb) && Large(power, n) && r <= 1 && s <= 1 && k <= 1
    ensures n % 2 == 0
    ensures Ready(C, c + Corner(power, n, r, s), A, a + Corner(power, n, r, k), B, b + Corner(power, n, k, s),
                  power, n / 2, Quad(n, sa, r, k), Quad(n, sb, k, s))
  {
    hide Quad, Size, Pow2, Corner;
    LargeHalf(power, n);
    CornerIsQuarter(power, n, r, s);
    CornerIsQuarter(power, n, r, k);
    CornerIsQuarter(power, n, k, s);
    HoldsQuad(A, a, n, sa, r, k);
    HoldsQuad(B, b, n, sb, k, s);
    QuarterInside(n, r, s);
    QuarterInside(n, r, k);
    QuarterInside(n, k, s);
  }

  /** Writing inside the output leaves an operand alone, whether or not it is in the same array. */
  lemma StillHolds(C: array<int>, c: nat, len: nat, wasC: seq<int>, at: nat, s: seq<int>,
                   A: array<int>, a: nat, sa: seq<int>, wasA: seq<int>)
    requires Wrote(C[..], wasC, at, s) && c <= at && at + |s| <= c + len && |sa| == len && Clear(C, c, A, a, len)
    requires if A == C then wasA == wasC else A[..] == wasA
    requires a + len <= |wasA| && forall x :: 0 <= x < len ==> wasA[a + x] == sa[x]
    ensures Holds(A, a, sa)
  {
    forall x | 0 <= x < len ensures A[a + x] == sa[x] {
      assert A[a + x] == A[..][a + x] && wasA[a + x] == sa[x];
    }
  }

  /** C := A * B, or C := C + A * B. */
  method MmDacZ(C: array<int>, c: nat, A: array<int>, a: nat, B: array<int>, b: nat, n: nat, add: bool,
                power: nat, ghost sa: seq<int>, ghost sb: seq<int>)
    requires Ready(C, c, A, a, B, b, power, n, sa, sb) && power >= 3
    modifies C
    ensures Wrote(C[..], old(C[..]), c, Target(add, Window(old(C[..]), c, n * n), Product(power, n, sa, sb)))
    decreases n, 3
  {
    hide Product, Wrote, Target, Window, Pow2, Size;
    if n == Pow2(power) {
      OneBlockProduct(C, c, A, a, B, b, n, add, power, sa, sb);
    } else {
      AboveABlock(power, n);
      TwoRoundsProduct(C, c, A, a, B, b, n, add, power, sa, sb);
    }
  }

  /** Above the base case: two rounds, with a sync between them. */
  method TwoRoundsProduct(C: array<int>, c: nat, A: array<int>, a: nat, B: array<int>, b: nat, n: nat, add: bool,
                          power: nat, ghost sa: seq<int>, ghost sb: seq<int>)
    requires Ready(C, c, A, a, B, b, power, n, sa, sb) && power >= 3 && Large(power, n)
    modifies C
    ensures Wrote(C[..], old(C[..]), c, Target(add, Window(old(C[..]), c, n * n), Product(power, n, sa, sb)))
    decreases n, 2
  {
    hide Product, Wrote, Target, Clear, RoundTarget, Window, Pow2, Size;
    ghost var w0 := C[..];
    ghost var w := Window(w0, c, n * n);
    ghost var wa, wb := A[..], B[..];
    Round(C, c, A, a, B, b, n, 0, add, power, sa, sb);
    ghost var w1, r1 := C[..], RoundTarget(power, n, w, sa, sb, 0, add);
    StillHolds(C, c, n * n, w0, c, r1, A, a, sa, wa);
    StillHolds(C, c, n * n, w0, c, r1, B, b, sb, wb);
    Round(C, c, A, a, B, b, n, 1, true, power, sa, sb);
    WroteWindow(w1, w0, c, r1);
    WroteOver(C[..], w1, w0, c, r1, RoundTarget(power, n, r1, sa, sb, 1, true));
    TwoRounds(power, n, w, sa, sb, add);
  }

  method OneBlockProduct(C: array<int>, c: nat, A: array<int>, a: nat, B: array<int>, b: nat, n: nat, add: bool,
                         power: nat, ghost sa: seq<int>, ghost sb: seq<int>)
    requires Ready(C, c, A, a, B, b, power, n, sa, sb) && power >= 3 && n == Pow2(power)
    modifies C
    ensures Wrote(C[..], old(C[..]), c, Target(add, Window(old(C[..]), c, n * n), Product(power, n, sa, sb)))
  {
    hide Product, Wrote, Target, Computed, Holds, Clear, Window, Pow2, Size;
    MultipleOfEight(power);
    if add {
      MmAdditiveBase(C, c, A, a, B, b, n, sa, sb);
    } else {
      MmBase(C, c, A, a, B, b, n, sa, sb);
    }
    ComputedWrote(C[..], old(C[..]), c, add, power, n, sa, sb);
  }

  lemma {:induction false} AboveABlock(power: nat, n: nat)
    requires Size(power, n) && n != Pow2(power)
    ensures Large(power, n)
  {
    if n / 2 != Pow2(power) {
      AboveABlock(power, n / 2);
    }
  }

  /** A block is at least eight columns wide. */
  lemma MultipleOfEight(power: nat)
    requires power >= 3
    ensures Pow2(power) % 8 == 0
  {
    assert Pow2(power) == 2 * Pow2(power - 1) && Pow2(power - 1) == 2 * Pow2(power - 2) && Pow2(power - 2) == 2 * Pow2(power - 3);
  }

  lemma WindowQuad(w: seq<int>, c: nat, n: nat, r: nat, s: nat)
    requires n % 2 == 0 && c + n * n <= |w| && r <= 1 && s <= 1
    ensures c + (2 * r + s) * (n / 2 * (n / 2)) + n / 2 * (n / 2) <= |w|
    ensures Window(w, c + (2 * r + s) * (n / 2 * (n / 2)), n / 2 * (n / 2)) == Quad(n, Window(w, c, n * n), r, s)
  {
    QuarterInside(n, r, s);
    SliceOfWindow(w, c, n * n, (2 * r + s) * (n / 2 * (n / 2)), n / 2 * (n / 2));
  }

  lemma SliceOfWindow(w: seq<int>, c: nat, len: nat, off: nat, k: nat)
    requires c + len <= |w| && off + k <= len
    ensures Window(w, c, len)[off..off + k] == Window(w, c + off, k)
  {
    var v := Window(w, c, len);
    assert |v| == len && forall i :: 0 <= i < len ==> v[i] == w[c + i];
  }

  lemma WroteWindow(now: seq<int>, was: seq<int>, at: nat, s: seq<int>)
    requires Wrote(now, was, at, s)
    ensures |now| == |was| && at + |s| <= |was| && Window(now, at, |s|) == s
  {
  }

  lemma WroteOver(now: seq<int>, mid: seq<int>, was: seq<int>, at: nat, s: seq<int>, t: seq<int>)
    requires Wrote(mid, was, at, s) && Wrote(now, mid, at, t) && |s| == |t|
    ensures Wrote(now, was, at, t)
  {
  }

  /** Quadrant (r, s) of the output, with its k-th product in it or onto it. */
  ghost function StepTarget(was: seq<int>, c: nat, power: nat, n: nat, sa: seq<int>, sb: seq<int>,
                            r: nat, s: nat, k: nat, add: bool): (t: seq<int>)
    requires Large(power, n) && |sa| == |sb| == n * n && r <= 1 && s <= 1 && k <= 1 && c + n * n <= |was|
    ensures |t| == n / 2 * (n / 2)
  {
    LargeHalf(power, n);
    Target(add, Quad(n, Window(was, c, n * n), r, s), Partial(power, n, sa, sb, r, s, k))
  }

  ghost predicate StepWrote(now: seq<int>, was: seq<int>, c: nat, power: nat, n: nat, sa: seq<int>, sb: seq<int>,
                            r: nat, s: nat, k: nat, add: bool)
    requires Large(power, n) && |sa| == |sb| == n * n && r <= 1 && s <= 1 && k <= 1 && c + n * n <= |was|
  {
    Wrote(now, was, c + (2 * r + s) * (n / 2 * (n / 2)), StepTarget(was, c, power, n, sa, sb, r, s, k, add))
  }

  /** A write inside the window at one quadrant leaves every other quadrant's window alone. */
  lemma OtherQuad(now: seq<int>, was: seq<int>, c: nat, n: nat, r: nat, s: nat, t: seq<int>, r': nat, s': nat)
    requires n % 2 == 0 && c + n * n <= |was| && r <= 1 && s <= 1 && r' <= 1 && s' <= 1 && (r != r' || s != s')
    requires |t| == n / 2 * (n / 2) && Wrote(now, was, c + (2 * r + s) * (n / 2 * (n / 2)), t)
    ensures Quad(n, Window(now, c, n * n), r', s') == Quad(n, Window(was, c, n * n), r', s')
  {
    hide Quad, Window;
    FourQuarters(n);
    WindowQuad(now, c, n, r', s');
    WindowQuad(was, c, n, r', s');
    OtherQuarter(n / 2 * (n / 2), 2 * r + s, 2 * r' + s');
    SameWindow(now, was, c + (2 * r + s) * (n / 2 * (n / 2)), t, c + (2 * r' + s') * (n / 2 * (n / 2)), n / 2 * (n / 2));
  }

  lemma OtherQuarter(mm: nat, q: nat, q': nat)
    requires q != q'
    ensures q * mm + mm <= q' * mm || q' * mm + mm <= q * mm
  {
    if q < q' {
      assert (q + 1) * mm <= q' * mm;
    } else {
      assert (q' + 1) * mm <= q * mm;
    }
  }

  lemma SameWindow(now: seq<int>, was: seq<int>, at: nat, t: seq<int>, from: nat, len: nat)
    requires Wrote(now, was, at, t) && from + len <= |was| && (at + |t| <= from || from + len <= at)
    ensures Window(now, from, len) == Window(was, from, len)
  {
  }

  lemma RoundWritten(w0: seq<int>, w1: seq<int>, w2: seq<int>, w3: seq<int>, w4: seq<int>, c: nat, power: nat, n: nat,
                     sa: seq<int>, sb: seq<int>, k: nat, add: bool)
    requires Large(power, n) && |sa| == |sb| == n * n && k <= 1 && c + n * n <= |w0| == |w1| == |w2| == |w3|
    requires StepWrote(w1, w0, c, power, n, sa, sb, 0, 0, k, add) && StepWrote(w2, w1, c, power, n, sa, sb, 0, 1, k, add)
    requires StepWrote(w3, w2, c, power, n, sa, sb, 1, 0, k, add) && StepWrote(w4, w3, c, power, n, sa, sb, 1, 1, k, add)
    ensures Wrote(w4, w0, c, RoundTarget(power, n, Window(w0, c, n * n), sa, sb, k, add))
  {
    hide Wrote, Target, Window, Quad, Partial, Size, Pow2;
    LargeHalf(power, n);
    var s0, s1 := StepTarget(w0, c, power, n, sa, sb, 0, 0, k, add), StepTarget(w1, c, power, n, sa, sb, 0, 1, k, add);
    var s2, s3 := StepTarget(w2, c, power, n, sa, sb, 1, 0, k, add), StepTarget(w3, c, power, n, sa, sb, 1, 1, k, add);
    OtherQuad(w1, w0, c, n, 0, 0, s0, 0, 1);
    OtherQuad(w1, w0, c, n, 0, 0, s0, 1, 0);
    OtherQuad(w1, w0, c, n, 0, 0, s0, 1, 1);
    OtherQuad(w2, w1, c, n, 0, 1, s1, 1, 0);
    OtherQuad(w2, w1, c, n, 0, 1, s1, 1, 1);
    OtherQuad(w3, w2, c, n, 1, 0, s2, 1, 1);
    FourWrites(w0, w1, w2, w3, w4, c, n / 2 * (n / 2), s0, s1, s2, s3);
  }

  /** One round: a product into, or onto, each quadrant of C. */
  method Round(C: array<int>, c: nat, A: array<int>, a: nat, B: array<int>, b: nat, n: nat, k: nat, add: bool,
               power: nat, ghost sa: seq<int>, ghost sb: seq<int>)
    requires Ready(C, c, A, a, B, b, power, n, sa, sb) && power >= 3 && Large(power, n) && k <= 1
    modifies C
    ensures Wrote(C[..], old(C[..]), c, RoundTarget(power, n, Window(old(C[..]), c, n * n), sa, sb, k, add))
    decreases n, 1
  {
    assert c + n * n <= C.Length && |sa| == |sb| == n * n;
    hide Ready, Wrote, RoundTarget, StepWrote, Large;
    ghost var w0 := C[..];
    RoundStep(C, c, A, a, B, b, n, 0, 0, k, add, power, sa, sb);
    ghost var w1 := C[..];
    RoundStep(C, c, A, a, B, b, n, 0, 1, k, add, power, sa, sb);
    ghost var w2 := C[..];
    RoundStep(C, c, A, a, B, b, n, 1, 0, k, add, power, sa, sb);
    ghost var w3 := C[..];
    RoundStep(C, c, A, a, B, b, n, 1, 1, k, add, power, sa, sb);
    RoundWritten(w0, w1, w2, w3, C[..], c, power, n, sa, sb, k, add);
  }

  /** One recursive call: quadrant (r, s) of C gets A(r, k) * B(k, s). */
  method RoundStep(C: array<int>, c: nat, A: array<int>, a: nat, B: array<int>, b: nat, n: nat, r: nat, s: nat, k: nat, add: bool,
                   power: nat, ghost sa: seq<int>, ghost sb: seq<int>)
    requires Ready(C, c, A, a, B, b, power, n, sa, sb) && power >= 3 && Large(power, n) && r <= 1 && s <= 1 && k <= 1
    modifies C
    ensures Ready(C, c, A, a, B, b, power, n, sa, sb)
    ensures StepWrote(C[..], old(C[..]), c, power, n, sa, sb, r, s, k, add)
    decreases n, 0
  {
    hide Product, Wrote, Target, Clear, Window, Quad, Corner, Size, Pow2;
    ghost var w0, wa, wb := C[..], A[..], B[..];
    LargeHalf(power, n);
    QuarterInside(n, r, s);
    CornerIsQuarter(power, n, r, s);
    QuadReady(C, c, A, a, B, b, power, n, sa, sb, r, s, k);
    MmDacZ(C, c + Corner(power, n, r, s), A, a + Corner(power, n, r, k), B, b + Corner(power, n, k, s), n / 2, add,
           power, Quad(n, sa, r, k), Quad(n, sb, k, s));
    WindowQuad(w0, c, n, r, s);
    ghost var t := StepTarget(w0, c, power, n, sa, sb, r, s, k, add);
    StillHolds(C, c, n * n, w0, c + Corner(power, n, r, s), t, A, a, sa, wa);
    StillHolds(C, c, n * n, w0, c + Corner(power, n, r, s), t, B, b, sb, wb);
  }
}
