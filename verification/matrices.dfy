/**
 Integer matrices in the blocked Z-order layout, as flat sequences: the plain product, its quadrants,
 and the Strassen-Winograd identity.
 */
module Matrices {
  import opened Morton
  import opened BlockLayout

  /** s is an n x n matrix. */
  ghost predicate Matrix(power: nat, n: nat, s: seq<int>) {
    Size(power, n) && |s| == n * n
  }

  ghost function Entry(power: nat, n: nat, s: seq<int>, i: nat, j: nat): int
    requires Matrix(power, n, s) && i < n && j < n
  {
    IndexInRange(power, n, i, j);
    s[Index(power, i, j)]
  }

  /** The first k terms of row i of a times column j of b. */
  ghost function Dot(power: nat, n: nat, a: seq<int>, b: seq<int>, i: nat, j: nat, k: nat): int
    requires Matrix(power, n, a) && Matrix(power, n, b) && i < n && j < n && k <= n
  {
    if k == 0 then 0
    else Dot(power, n, a, b, i, j, k - 1) + Entry(power, n, a, i, k - 1) * Entry(power, n, b, k - 1, j)
  }

  ghost function ProductAt(power: nat, n: nat, a: seq<int>, b: seq<int>, z: nat): int
    requires Matrix(power, n, a) && Matrix(power, n, b) && z < n * n
  {
    PlaceInRange(power, n, z);
    Dot(power, n, a, b, RowAt(power, z), ColAt(power, z), n)
  }

  lemma PlaceInRange(power: nat, n: nat, z: nat)
    requires Size(power, n) && z < n * n
    ensures RowAt(power, z) < n && ColAt(power, z) < n
  {
    hide Index, RowAt, ColAt, Size;
    IndexBack(power, z);
    IndexInRange(power, n, RowAt(power, z), ColAt(power, z));
  }

  /** The plain product. */
  ghost function Product(power: nat, n: nat, a: seq<int>, b: seq<int>): (c: seq<int>)
    requires Matrix(power, n, a) && Matrix(power, n, b)
    ensures Matrix(power, n, c)
  {
    seq(n * n, z requires 0 <= z < n * n => ProductAt(power, n, a, b, z))
  }

  /** Entry (i, j) of the product is row i times column j: what matrixmul computes. */
  lemma ProductIsPlain(power: nat, n: nat, a: seq<int>, b: seq<int>, i: nat, j: nat)
    requires Matrix(power, n, a) && Matrix(power, n, b) && i < n && j < n
    ensures Entry(power, n, Product(power, n, a, b), i, j) == Dot(power, n, a, b, i, j, n)
  {
    hide Index, RowAt, ColAt, Size, Dot;
    IndexInRange(power, n, i, j);
    IndexThere(power, i, j);
  }

  function Add(s: seq<int>, t: seq<int>): (r: seq<int>)
    requires |s| == |t|
    ensures |r| == |s|
  {
    seq(|s|, i requires 0 <= i < |s| => s[i] + t[i])
  }

  function Sub(s: seq<int>, t: seq<int>): (r: seq<int>)
    requires |s| == |t|
    ensures |r| == |s|
  {
    seq(|s|, i requires 0 <= i < |s| => s[i] - t[i])
  }

  // ---------------------------------------------------------------- the product is bilinear

  lemma {:induction false} DotAddLeft(power: nat, n: nat, a: seq<int>, a': seq<int>, b: seq<int>, i: nat, j: nat, k: nat)
    requires Matrix(power, n, a) && Matrix(power, n, a') && Matrix(power, n, b) && i < n && j < n && k <= n
    ensures Dot(power, n, Add(a, a'), b, i, j, k) == Dot(power, n, a, b, i, j, k) + Dot(power, n, a', b, i, j, k)
    ensures Dot(power, n, Sub(a, a'), b, i, j, k) == Dot(power, n, a, b, i, j, k) - Dot(power, n, a', b, i, j, k)
  {
    hide Index, Size;
    if k > 0 {
      DotAddLeft(power, n, a, a', b, i, j, k - 1);
      EntryAdd(power, n, a, a', i, k - 1);
      Distribute2(Entry(power, n, a, i, k - 1), Entry(power, n, a', i, k - 1), Entry(power, n, b, k - 1, j));
    }
  }

  lemma {:induction false} DotAddRight(power: nat, n: nat, a: seq<int>, b: seq<int>, b': seq<int>, i: nat, j: nat, k: nat)
    requires Matrix(power, n, a) && Matrix(power, n, b) && Matrix(power, n, b') && i < n && j < n && k <= n
    ensures Dot(power, n, a, Add(b, b'), i, j, k) == Dot(power, n, a, b, i, j, k) + Dot(power, n, a, b', i, j, k)
    ensures Dot(power, n, a, Sub(b, b'), i, j, k) == Dot(power, n, a, b, i, j, k) - Dot(power, n, a, b', i, j, k)
  {
    hide Index, Size;
    if k > 0 {
      DotAddRight(power, n, a, b, b', i, j, k - 1);
      EntryAdd(power, n, b, b', k - 1, j);
      Distribute2(Entry(power, n, b, k - 1, j), Entry(power, n, b', k - 1, j), Entry(power, n, a, i, k - 1));
    }
  }

  lemma EntryAdd(power: nat, n: nat, s: seq<int>, t: seq<int>, i: nat, j: nat)
    requires Matrix(power, n, s) && Matrix(power, n, t) && i < n && j < n
    ensures Entry(power, n, Add(s, t), i, j) == Entry(power, n, s, i, j) + Entry(power, n, t, i, j)
    ensures Entry(power, n, Sub(s, t), i, j) == Entry(power, n, s, i, j) - Entry(power, n, t, i, j)
  {
    hide Index, Size;
    IndexInRange(power, n, i, j);
  }

  lemma Distribute2(x: int, y: int, z: int)
    ensures (x + y) * z == x * z + y * z && (x - y) * z == x * z - y * z
    ensures z * (x + y) == z * x + z * y && z * (x - y) == z * x - z * y
  {
  }

  lemma BilinearAt(power: nat, n: nat, a: seq<int>, a': seq<int>, b: seq<int>, z: nat)
    requires Matrix(power, n, a) && Matrix(power, n, a') && Matrix(power, n, b) && z < n * n
    ensures Product(power, n, Add(a, a'), b)[z] == Product(power, n, a, b)[z] + Product(power, n, a', b)[z]
    ensures Product(power, n, Sub(a, a'), b)[z] == Product(power, n, a, b)[z] - Product(power, n, a', b)[z]
    ensures Product(power, n, b, Add(a, a'))[z] == Product(power, n, b, a)[z] + Product(power, n, b, a')[z]
    ensures Product(power, n, b, Sub(a, a'))[z] == Product(power, n, b, a)[z] - Product(power, n, b, a')[z]
  {
    hide RowAt, ColAt, Size, Dot, Add, Sub;
    PlaceInRange(power, n, z);
    DotAddLeft(power, n, a, a', b, RowAt(power, z), ColAt(power, z), n);
    DotAddRight(power, n, b, a, a', RowAt(power, z), ColAt(power, z), n);
  }

  // ---------------------------------------------------------------- Strassen-Winograd

  datatype Quads = Quads(q11: seq<int>, q12: seq<int>, q21: seq<int>, q22: seq<int>) {
    ghost predicate Sized(power: nat, m: nat) {
      Matrix(power, m, q11) && Matrix(power, m, q12) && Matrix(power, m, q21) && Matrix(power, m, q22)
    }
  }

  /** The eight sums of setup_add. */
  datatype Sums = Sums(s1: seq<int>, s2: seq<int>, s3: seq<int>, s4: seq<int>,
                       s5: seq<int>, s6: seq<int>, s7: seq<int>, s8: seq<int>)

  ghost function SumsOf(power: nat, m: nat, a: Quads, b: Quads): (s: Sums)
    requires a.Sized(power, m) && b.Sized(power, m)
  {
    var s1 := Add(a.q21, a.q22);
    var s2 := Sub(s1, a.q11);
    var s5 := Sub(b.q12, b.q11);
    var s6 := Sub(b.q22, s5);
    Sums(s1, s2, Sub(a.q11, a.q21), Sub(a.q12, s2), s5, s6, Sub(b.q22, b.q12), Sub(s6, b.q21))
  }

  /** The seven products, p1..p7 in the source's numbering. */
  datatype Seven = Seven(p1: seq<int>, p2: seq<int>, p3: seq<int>, p4: seq<int>,
                         p5: seq<int>, p6: seq<int>, p7: seq<int>)

  ghost function SevenOf(power: nat, m: nat, a: Quads, b: Quads): (p: Seven)
    requires a.Sized(power, m) && b.Sized(power, m)
  {
    var s := SumsOf(power, m, a, b);
    Seven(Product(power, m, a.q11, b.q11), Product(power, m, a.q12, b.q21), Product(power, m, s.s4, b.q22),
          Product(power, m, a.q22, s.s8), Product(power, m, s.s1, s.s5), Product(power, m, s.s2, s.s6),
          Product(power, m, s.s3, s.s7))
  }

  /** What final_add makes of one cell of each of the seven products. */
  function Recombined(p1: int, p2: int, p3: int, p4: int, p5: int, p6: int, p7: int): (int, int, int, int) {
    (p2 + p1, p3 + (p5 + p6 + p1), p7 + (p1 + p6) - p4, p7 + (p1 + p6) + p5)
  }

  /** The seven products recombine to the four quadrant sums, in every cell. */
  lemma StrassenWinograd(power: nat, m: nat, a: Quads, b: Quads, z: nat)
    requires a.Sized(power, m) && b.Sized(power, m) && z < m * m
    ensures var p := SevenOf(power, m, a, b);
      Recombined(p.p1[z], p.p2[z], p.p3[z], p.p4[z], p.p5[z], p.p6[z], p.p7[z])
      == (Product(power, m, a.q11, b.q11)[z] + Product(power, m, a.q12, b.q21)[z],
          Product(power, m, a.q11, b.q12)[z] + Product(power, m, a.q12, b.q22)[z],
          Product(power, m, a.q21, b.q11)[z] + Product(power, m, a.q22, b.q21)[z],
          Product(power, m, a.q21, b.q12)[z] + Product(power, m, a.q22, b.q22)[z])
  {
    hide Product, Add, Sub;
    var s := SumsOf(power, m, a, b);
    ExpandLeft(power, m, a, b.q22, z);
    ExpandRight(power, m, b, a.q22, z);
    ExpandBoth(power, m, a, b, s, z);
  }

  /** Products with S1..S4 on the left. */
  lemma ExpandLeft(power: nat, m: nat, a: Quads, x: seq<int>, z: nat)
    requires a.Sized(power, m) && Matrix(power, m, x) && z < m * m
    ensures var s1 := Add(a.q21, a.q22);
      var p11, p12, p21, p22 := Product(power, m, a.q11, x)[z], Product(power, m, a.q12, x)[z],
                                Product(power, m, a.q21, x)[z], Product(power, m, a.q22, x)[z];
      && Product(power, m, s1, x)[z] == p21 + p22
      && Product(power, m, Sub(s1, a.q11), x)[z] == p21 + p22 - p11
      && Product(power, m, Sub(a.q11, a.q21), x)[z] == p11 - p21
      && Product(power, m, Sub(a.q12, Sub(s1, a.q11)), x)[z] == p12 - p21 - p22 + p11
  {
    hide Product, Add, Sub;
    var s1 := Add(a.q21, a.q22);
    BilinearAt(power, m, a.q21, a.q22, x, z);
    BilinearAt(power, m, s1, a.q11, x, z);
    BilinearAt(power, m, a.q11, a.q21, x, z);
    BilinearAt(power, m, a.q12, Sub(s1, a.q11), x, z);
  }

  /** Products with S5..S8 on the right. */
  lemma ExpandRight(power: nat, m: nat, b: Quads, x: seq<int>, z: nat)
    requires b.Sized(power, m) && Matrix(power, m, x) && z < m * m
    ensures var s5 := Sub(b.q12, b.q11);
      var s6 := Sub(b.q22, s5);
      var p11, p12, p21, p22 := Product(power, m, x, b.q11)[z], Product(power, m, x, b.q12)[z],
                                Product(power, m, x, b.q21)[z], Product(power, m, x, b.q22)[z];
      && Product(power, m, x, s5)[z] == p12 - p11
      && Product(power, m, x, s6)[z] == p22 - p12 + p11
      && Product(power, m, x, Sub(b.q22, b.q12))[z] == p22 - p12
      && Product(power, m, x, Sub(s6, b.q21))[z] == p22 - p12 + p11 - p21
  {
    hide Product, Add, Sub;
    var s5 := Sub(b.q12, b.q11);
    BilinearAt(power, m, b.q12, b.q11, x, z);
    BilinearAt(power, m, b.q22, s5, x, z);
    BilinearAt(power, m, b.q22, b.q12, x, z);
    BilinearAt(power, m, Sub(b.q22, s5), b.q21, x, z);
  }

  lemma ExpandBoth(power: nat, m: nat, a: Quads, b: Quads, s: Sums, z: nat)
    requires a.Sized(power, m) && b.Sized(power, m) && z < m * m && s == SumsOf(power, m, a, b)
    ensures var f := (x: seq<int>, y: seq<int>) requires Matrix(power, m, x) && Matrix(power, m, y) => Product(power, m, x, y)[z];
      && f(s.s1, s.s5) == f(a.q21, b.q12) + f(a.q22, b.q12) - f(a.q21, b.q11) - f(a.q22, b.q11)
      && f(s.s2, s.s6) == f(a.q21, b.q22) + f(a.q22, b.q22) - f(a.q11, b.q22)
                          - (f(a.q21, b.q12) + f(a.q22, b.q12) - f(a.q11, b.q12))
                          + (f(a.q21, b.q11) + f(a.q22, b.q11) - f(a.q11, b.q11))
      && f(s.s3, s.s7) == f(a.q11, b.q22) - f(a.q21, b.q22) - f(a.q11, b.q12) + f(a.q21, b.q12)
  {
    hide Product, Add, Sub;
    ExpandRight(power, m, b, s.s1, z);
    ExpandRight(power, m, b, s.s2, z);
    ExpandRight(power, m, b, s.s3, z);
    ExpandLeft(power, m, a, b.q11, z);
    ExpandLeft(power, m, a, b.q12, z);
    ExpandLeft(power, m, a, b.q22, z);
  }

  // ---------------------------------------------------------------- quadrants

  lemma FourQuarters(n: nat)
    requires n % 2 == 0
    ensures n * n == 4 * (n / 2 * (n / 2))
  {
    var m := n / 2;
    assert n == 2 * m;
    assert (2 * m) * (2 * m) == 4 * (m * m);
  }

  /** Quadrant (r, c): a contiguous quarter. */
  function Quad(n: nat, s: seq<int>, r: nat, c: nat): (t: seq<int>)
    requires n % 2 == 0 && |s| == n * n && r <= 1 && c <= 1
    ensures |t| == n / 2 * (n / 2)
  {
    FourQuarters(n);
    var mm := n / 2 * (n / 2);
    s[(2 * r + c) * mm..(2 * r + c) * mm + mm]
  }

  /** n can be halved. */
  ghost predicate Large(power: nat, n: nat) {
    Size(power, n) && n > Pow2(power)
  }

  lemma LargeHalf(power: nat, n: nat)
    requires Large(power, n)
    ensures n % 2 == 0 && Size(power, n / 2) && 0 < n / 2 < n && n * n == 4 * (n / 2 * (n / 2))
  {
    hide Pow2;
    FourQuarters(n);
  }

  lemma QuadEntry(power: nat, n: nat, s: seq<int>, r: nat, c: nat, i: nat, j: nat)
    requires Large(power, n) && |s| == n * n && r <= 1 && c <= 1 && i < n / 2 && j < n / 2
    ensures n % 2 == 0 && Matrix(power, n / 2, Quad(n, s, r, c)) && i + r * (n / 2) < n && j + c * (n / 2) < n
    ensures Entry(power, n, s, i + r * (n / 2), j + c * (n / 2)) == Entry(power, n / 2, Quad(n, s, r, c), i, j)
  {
    hide Index, Size, Pow2;
    LargeHalf(power, n);
    IndexQuadrant(power, n, i, j, r, c);
    IndexInRange(power, n / 2, i, j);
  }

  lemma {:induction false} DotFirstHalf(power: nat, n: nat, a: seq<int>, b: seq<int>, r: nat, c: nat, i: nat, j: nat, k: nat)
    requires Large(power, n) && |a| == |b| == n * n && r <= 1 && c <= 1 && i < n / 2 && j < n / 2 && k <= n / 2
    ensures n % 2 == 0 && Matrix(power, n / 2, Quad(n, a, r, 0)) && Matrix(power, n / 2, Quad(n, b, 0, c))
    ensures i + r * (n / 2) < n && j + c * (n / 2) < n
    ensures Dot(power, n, a, b, i + r * (n / 2), j + c * (n / 2), k)
         == Dot(power, n / 2, Quad(n, a, r, 0), Quad(n, b, 0, c), i, j, k)
  {
    hide Size, Pow2, Quad, Entry;
    LargeHalf(power, n);
    QuadEntry(power, n, a, r, 0, i, 0);
    QuadEntry(power, n, b, 0, c, 0, j);
    if k > 0 {
      DotFirstHalf(power, n, a, b, r, c, i, j, k - 1);
      QuadEntry(power, n, a, r, 0, i, k - 1);
      QuadEntry(power, n, b, 0, c, k - 1, j);
    }
  }

  lemma {:induction false} DotSecondHalf(power: nat, n: nat, a: seq<int>, b: seq<int>, r: nat, c: nat, i: nat, j: nat, k: nat)
    requires Large(power, n) && |a| == |b| == n * n && r <= 1 && c <= 1 && i < n / 2 && j < n / 2 && k <= n / 2
    ensures n % 2 == 0 && Matrix(power, n / 2, Quad(n, a, r, 0)) && Matrix(power, n / 2, Quad(n, b, 0, c))
    ensures Matrix(power, n / 2, Quad(n, a, r, 1)) && Matrix(power, n / 2, Quad(n, b, 1, c))
    ensures i + r * (n / 2) < n && j + c * (n / 2) < n
    ensures Dot(power, n, a, b, i + r * (n / 2), j + c * (n / 2), n / 2 + k)
         == Dot(power, n / 2, Quad(n, a, r, 0), Quad(n, b, 0, c), i, j, n / 2)
            + Dot(power, n / 2, Quad(n, a, r, 1), Quad(n, b, 1, c), i, j, k)
  {
    hide Size, Pow2, Quad, Entry;
    LargeHalf(power, n);
    QuadEntry(power, n, a, r, 1, i, 0);
    QuadEntry(power, n, b, 1, c, 0, j);
    DotFirstHalf(power, n, a, b, r, c, i, j, n / 2);
    if k > 0 {
      DotSecondHalf(power, n, a, b, r, c, i, j, k - 1);
      QuadEntry(power, n, a, r, 1, i, k - 1);
      QuadEntry(power, n, b, 1, c, k - 1, j);
    }
  }

  lemma QuadPlace(power: nat, n: nat, r: nat, c: nat, z: nat)
    requires Large(power, n) && r <= 1 && c <= 1 && z < n / 2 * (n / 2)
    ensures var w := (2 * r + c) * (n / 2 * (n / 2)) + z;
      && w < n * n && RowAt(power, w) == RowAt(power, z) + r * (n / 2) && ColAt(power, w) == ColAt(power, z) + c * (n / 2)
  {
    hide Index, RowAt, ColAt, Size, Pow2;
    LargeHalf(power, n);
    PlaceInRange(power, n / 2, z);
    IndexQuadrant(power, n, RowAt(power, z), ColAt(power, z), r, c);
    IndexBack(power, z);
    IndexThere(power, RowAt(power, z) + r * (n / 2), ColAt(power, z) + c * (n / 2));
  }

  /** Quadrant (r, c) of the product is a row of quadrants times a column of quadrants. */
  ghost function QuadProduct(power: nat, n: nat, a: seq<int>, b: seq<int>, r: nat, c: nat): (t: seq<int>)
    requires Large(power, n) && |a| == |b| == n * n && r <= 1 && c <= 1
    ensures n % 2 == 0 && |t| == n / 2 * (n / 2)
  {
    LargeHalf(power, n);
    Add(Product(power, n / 2, Quad(n, a, r, 0), Quad(n, b, 0, c)), Product(power, n / 2, Quad(n, a, r, 1), Quad(n, b, 1, c)))
  }

  lemma ProductQuadrantAt(power: nat, n: nat, a: seq<int>, b: seq<int>, r: nat, c: nat, z: nat)
    requires Large(power, n) && |a| == |b| == n * n && r <= 1 && c <= 1 && z < n / 2 * (n / 2)
    ensures (2 * r + c) * (n / 2 * (n / 2)) + z < n * n
    ensures Product(power, n, a, b)[(2 * r + c) * (n / 2 * (n / 2)) + z] == QuadProduct(power, n, a, b, r, c)[z]
  {
    hide Dot, RowAt, ColAt, Size, Pow2, Quad;
    LargeHalf(power, n);
    QuadPlace(power, n, r, c, z);
    PlaceInRange(power, n / 2, z);
    DotSecondHalf(power, n, a, b, r, c, RowAt(power, z), ColAt(power, z), n / 2);
  }

  lemma ProductQuadrant(power: nat, n: nat, a: seq<int>, b: seq<int>, r: nat, c: nat)
    requires Large(power, n) && |a| == |b| == n * n && r <= 1 && c <= 1
    ensures n % 2 == 0 && Quad(n, Product(power, n, a, b), r, c) == QuadProduct(power, n, a, b, r, c)
  {
    hide Product, QuadProduct, Size, Pow2;
    LargeHalf(power, n);
    var s, t := Quad(n, Product(power, n, a, b), r, c), QuadProduct(power, n, a, b, r, c);
    forall z | 0 <= z < n / 2 * (n / 2) ensures s[z] == t[z] {
      ProductQuadrantAt(power, n, a, b, r, c, z);
    }
  }

  lemma QuadsInOrder(n: nat, s: seq<int>)
    requires n % 2 == 0 && |s| == n * n
    ensures s == Quad(n, s, 0, 0) + Quad(n, s, 0, 1) + Quad(n, s, 1, 0) + Quad(n, s, 1, 1)
  {
    hide Quad;
    var mm := n / 2 * (n / 2);
    FourQuarters(n);
    QuadIs(n, s, 0, 0);
    QuadIs(n, s, 0, 1);
    QuadIs(n, s, 1, 0);
    QuadIs(n, s, 1, 1);
    FourParts(s, mm);
  }

  lemma QuadIs(n: nat, s: seq<int>, r: nat, c: nat)
    requires n % 2 == 0 && |s| == n * n && r <= 1 && c <= 1
    ensures |s| == 4 * (n / 2 * (n / 2)) && Quad(n, s, r, c) == Quarter(s, n / 2 * (n / 2), r, c)
  {
    FourQuarters(n);
  }

  /** Quadrant (r, c) by its bounds. */
  function Quarter(s: seq<int>, mm: nat, r: nat, c: nat): seq<int>
    requires |s| == 4 * mm && r <= 1 && c <= 1
  {
    if r == 0 then (if c == 0 then s[0..mm] else s[mm..2 * mm])
    else if c == 0 then s[2 * mm..3 * mm] else s[3 * mm..4 * mm]
  }

  lemma FourParts(s: seq<int>, mm: nat)
    requires |s| == 4 * mm
    ensures s == s[0..mm] + s[mm..2 * mm] + s[2 * mm..3 * mm] + s[3 * mm..4 * mm]
  {
  }

  /** A matrix is made of its quadrants. */
  lemma SameQuads(n: nat, s: seq<int>, t: seq<int>)
    requires n % 2 == 0 && |s| == |t| == n * n
    requires forall r: nat, c: nat :: r <= 1 && c <= 1 ==> Quad(n, s, r, c) == Quad(n, t, r, c)
    ensures s == t
  {
    hide Quad;
    QuadsInOrder(n, s);
    QuadsInOrder(n, t);
  }

  // ---------------------------------------------------------------- one block

  /** Inside one block the layout is row-major. */
  lemma OneBlock(power: nat, i: nat, j: nat)
    requires i < Pow2(power) && j < Pow2(power)
    ensures Index(power, i, j) == i * Pow2(power) + j
  {
    hide Quot, Rem;
    var b := Pow2(power);
    QuotIs(i, 0, i, b);
    QuotIs(j, 0, j, b);
    assert Interleave(0, 0) == 0;
  }
}
