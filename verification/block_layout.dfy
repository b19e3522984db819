/**
 block_convert: where cell (row, col) of a matrix lies, for blocks of 2^power x 2^power cells.
 */
module BlockLayout {
  import opened Morton

  // ---------------------------------------------------------------- quotient and remainder

  function Quot(x: nat, b: nat): (q: nat)
    requires b >= 1
  {
    x / b
  }

  function Rem(x: nat, b: nat): (r: nat)
    requires b >= 1
    ensures r < b
  {
    x % b
  }

  lemma QuotRem(x: nat, b: nat)
    requires b >= 1
    ensures x == Quot(x, b) * b + Rem(x, b) && Quot(x, b) <= x
  {
  }

  lemma QuotIs(x: nat, q: nat, r: nat, b: nat)
    requires x == q * b + r && r < b
    ensures Quot(x, b) == q && Rem(x, b) == r
  {
    hide Quot, Rem;
    QuotRem(x, b);
    Only(Quot(x, b), Rem(x, b), q, r, b);
  }

  lemma Only(q: nat, r: nat, q': nat, r': nat, b: nat)
    requires q * b + r == q' * b + r' && r < b && r' < b
    ensures q == q' && r == r'
  {
    if q != q' {
      var lo, hi := if q < q' then q else q', if q < q' then q' else q;
      AtLeastOneMore(lo, hi, b);
    }
  }

  lemma AtLeastOneMore(lo: nat, hi: nat, b: nat)
    requires lo < hi
    ensures lo * b + b <= hi * b
  {
    assert (lo + 1) * b <= hi * b;
  }

  lemma InBlock(i: nat, j: nat, b: nat)
    requires i < b && j < b
    ensures i * b + j < b * b && 1 <= b * b
  {
    assert (i + 1) * b <= b * b;
  }

  lemma QuotBelow(x: nat, b: nat, h: nat)
    requires b >= 1
    ensures x < b * h <==> Quot(x, b) < h
  {
    hide Quot, Rem;
    QuotRem(x, b);
    var q := Quot(x, b);
    if q < h {
      assert (q + 1) * b <= h * b;
    } else {
      assert h * b <= q * b;
    }
  }

  // ---------------------------------------------------------------- the layout

  /** n is a block or twice such a size. */
  ghost predicate Size(power: nat, n: nat) {
    n == Pow2(power) || (n > 0 && n % 2 == 0 && Size(power, n / 2))
  }

  /** The largest size for which every offset fits a 32-bit int and every block coordinate 16 bits. */
  const MAX_N: nat := 32768

  /** x >> power, for non-negative x. */
  function Shr(x: nat, power: nat): nat {
    Quot(x, Pow2(power))
  }

  /** x << power. */
  function Shl(x: nat, power: nat): nat {
    x * Pow2(power)
  }

  function BlockConvert(power: nat, row: nat, col: nat): (z: nat)
    requires row < MAX_N && col < MAX_N
  {
    QuotRem(row, Pow2(power));
    QuotRem(col, Pow2(power));
    var blockIndex := ZConvert(Shr(row, power), Shr(col, power));
    Shl(Shl(blockIndex, power), power) + Shl(row - Shl(Shr(row, power), power), power) + (col - Shl(Shr(col, power), power))
  }

  /** Cell (i, j) of block h, for b x b blocks. */
  function Cell(h: nat, i: nat, j: nat, b: nat): (z: nat) {
    h * (b * b) + (i * b + j)
  }

  /** The same for any size. */
  function Index(power: nat, row: nat, col: nat): (z: nat) {
    var b := Pow2(power);
    Cell(Interleave(Quot(row, b), Quot(col, b)), Rem(row, b), Rem(col, b), b)
  }

  lemma BlockConvertIsIndex(power: nat, row: nat, col: nat)
    requires row < MAX_N && col < MAX_N
    ensures BlockConvert(power, row, col) == Index(power, row, col)
  {
    hide Quot, Rem, ZConvert, Interleave, Pow2;
    var b := Pow2(power);
    QuotRem(row, b);
    QuotRem(col, b);
    ZConvertInterleaves(Quot(row, b), Quot(col, b));
    Regroup(Interleave(Quot(row, b), Quot(col, b)), b);
  }

  lemma Regroup(h: nat, b: nat)
    ensures (h * b) * b == h * (b * b)
  {
  }

  function BlockOf(z: nat, b: nat): nat
    requires b >= 1
  {
    InBlock(0, 0, b);
    Quot(z, b * b)
  }

  function Within(z: nat, b: nat): nat
    requires b >= 1
  {
    InBlock(0, 0, b);
    Rem(z, b * b)
  }

  /** Back from a position to its row and column. */
  function RowAt(power: nat, z: nat): (r: nat) {
    var b := Pow2(power);
    OddBits(BlockOf(z, b)) * b + Quot(Within(z, b), b)
  }

  function ColAt(power: nat, z: nat): (c: nat) {
    var b := Pow2(power);
    EvenBits(BlockOf(z, b)) * b + Rem(Within(z, b), b)
  }

  lemma Decompose(h: nat, i: nat, j: nat, b: nat)
    requires i < b && j < b
    ensures var z := Cell(h, i, j, b);
      BlockOf(z, b) == h && Within(z, b) == i * b + j && Quot(Within(z, b), b) == i && Rem(Within(z, b), b) == j
  {
    hide Quot, Rem;
    InBlock(i, j, b);
    QuotIs(Cell(h, i, j, b), h, i * b + j, b * b);
    QuotIs(i * b + j, i, j, b);
  }

  lemma Recompose(z: nat, b: nat)
    requires b >= 1
    ensures Quot(Within(z, b), b) < b
    ensures Cell(BlockOf(z, b), Quot(Within(z, b), b), Rem(Within(z, b), b), b) == z
  {
    hide Quot, Rem;
    InBlock(0, 0, b);
    QuotRem(z, b * b);
    QuotRem(Within(z, b), b);
    QuotBelow(Within(z, b), b, b);
  }

  /** Every cell of the matrix gets its own position ... */
  lemma IndexThere(power: nat, row: nat, col: nat)
    ensures var z := Index(power, row, col); RowAt(power, z) == row && ColAt(power, z) == col
  {
    hide Quot, Rem, BlockOf, Within, Cell, Interleave, OddBits, EvenBits, Pow2;
    var b := Pow2(power);
    Decompose(Interleave(Quot(row, b), Quot(col, b)), Rem(row, b), Rem(col, b), b);
    Deinterleave(Quot(row, b), Quot(col, b));
    QuotRem(row, b);
    QuotRem(col, b);
  }

  /** ... and every position is some cell's. */
  lemma IndexBack(power: nat, z: nat)
    ensures Index(power, RowAt(power, z), ColAt(power, z)) == z
  {
    hide Quot, Rem, BlockOf, Within, Cell, Interleave, OddBits, EvenBits, Pow2;
    var b := Pow2(power);
    Recompose(z, b);
    Reinterleave(BlockOf(z, b));
    QuotIs(RowAt(power, z), OddBits(BlockOf(z, b)), Quot(Within(z, b), b), b);
    QuotIs(ColAt(power, z), EvenBits(BlockOf(z, b)), Rem(Within(z, b), b), b);
  }

  /** n is a block size times a power of two. */
  lemma {:induction false} SizeLog(power: nat, n: nat) returns (k: nat)
    requires Size(power, n)
    ensures n == Pow2(power) * Pow2(k)
    ensures n > Pow2(power) ==> k > 0 && n % 2 == 0 && Size(power, n / 2) && n / 2 == Pow2(power) * Pow2(k - 1)
  {
    if n == Pow2(power) {
      k := 0;
    } else {
      k := SizeLog(power, n / 2);
      k := k + 1;
    }
  }

  /** The matrix fills exactly the first n * n positions. */
  lemma IndexInRange(power: nat, n: nat, i: nat, j: nat)
    requires Size(power, n)
    ensures i < n && j < n <==> Index(power, i, j) < n * n
  {
    var k := SizeLog(power, n);
    hide Quot, Rem, BlockOf, Within, Cell, Interleave, OddBits, EvenBits, Pow2, Size;
    var b := Pow2(power);
    var q := Interleave(Quot(i, b), Quot(j, b));
    QuotBelow(i, b, Pow2(k));
    QuotBelow(j, b, Pow2(k));
    Decompose(q, Rem(i, b), Rem(j, b), b);
    BlockBelow(Index(power, i, j), b, Pow2(k), n);
    InterleaveBelow(k, Quot(i, b), Quot(j, b));
  }

  lemma InterleaveBelow(k: nat, r: nat, c: nat)
    ensures r < Pow2(k) && c < Pow2(k) <==> Interleave(r, c) < Pow2(k) * Pow2(k)
  {
    hide Interleave, OddBits, EvenBits, Pow2;
    Deinterleave(r, c);
    if r < Pow2(k) && c < Pow2(k) {
      InterleaveQuarter(k, r, c, 0, 0);
    } else if Interleave(r, c) < Pow2(k) * Pow2(k) {
      BitsBounded(k, Interleave(r, c));
    }
  }

  lemma BlockBelow(z: nat, b: nat, h: nat, n: nat)
    requires b >= 1 && n == b * h
    ensures z < n * n <==> BlockOf(z, b) < h * h
  {
    hide Quot;
    InBlock(0, 0, b);
    SquareOfProduct(b, h);
    QuotBelow(z, b * b, h * h);
  }

  lemma SquareOfProduct(b: nat, h: nat)
    ensures (b * h) * (b * h) == (b * b) * (h * h)
  {
  }

  /** The quadrant law: quadrant (r, c) of a matrix is a contiguous quarter, laid out like a matrix. */
  lemma IndexQuadrant(power: nat, n: nat, i: nat, j: nat, r: nat, c: nat)
    requires Size(power, n) && n > Pow2(power) && i < n / 2 && j < n / 2 && r <= 1 && c <= 1
    ensures Index(power, i + r * (n / 2), j + c * (n / 2)) == (2 * r + c) * (n / 2 * (n / 2)) + Index(power, i, j)
  {
    var k := SizeLog(power, n);
    QuadrantOf(power, k - 1, n / 2, i, j, r, c);
  }

  lemma QuadrantOf(power: nat, k: nat, m: nat, i: nat, j: nat, r: nat, c: nat)
    requires m == Pow2(power) * Pow2(k) && i < m && j < m && r <= 1 && c <= 1
    ensures Index(power, i + r * m, j + c * m) == (2 * r + c) * (m * m) + Index(power, i, j)
  {
    hide Quot, Rem, Interleave, Pow2, Cell;
    var b, h := Pow2(power), Pow2(k);
    QuotBelow(i, b, h);
    QuotBelow(j, b, h);
    InterleaveQuarter(k, Quot(i, b), Quot(j, b), r, c);
    FartherOn(i, r, b, h, m);
    FartherOn(j, c, b, h, m);
    QuarterCell(2 * r + c, h, Interleave(Quot(i, b), Quot(j, b)), Rem(i, b), Rem(j, b), b, m);
  }

  lemma QuarterCell(q: nat, h: nat, t: nat, x: nat, y: nat, b: nat, m: nat)
    requires m == b * h
    ensures Cell(q * (h * h) + t, x, y, b) == q * (m * m) + Cell(t, x, y, b)
  {
    SquareOfProduct(b, h);
    Distribute(q, h * h, t, b * b);
  }

  lemma FartherOn(i: nat, r: nat, b: nat, h: nat, m: nat)
    requires b >= 1 && m == b * h
    ensures Quot(i + r * m, b) == Quot(i, b) + r * h && Rem(i + r * m, b) == Rem(i, b)
  {
    hide Quot, Rem;
    QuotRem(i, b);
    assert i + r * m == (Quot(i, b) + r * h) * b + Rem(i, b);
    QuotIs(i + r * m, Quot(i, b) + r * h, Rem(i, b), b);
  }

  lemma Distribute(q: nat, hh: nat, t: nat, bb: nat)
    ensures (q * hh + t) * bb == q * (bb * hh) + t * bb
  {
  }

  lemma SquareUpTo(n: nat, m: nat)
    requires n <= m
    ensures n * n <= m * m
  {
    assert n * n <= m * n <= m * m;
  }

  /** block_convert maps the n x n cells one to one onto the first n * n positions, and obeys the quadrant law. */
  lemma BlockConvertBijection(power: nat, n: nat, i: nat, j: nat, z: nat)
    requires Size(power, n) && n <= MAX_N && i < n && j < n && z < n * n
    ensures BlockConvert(power, i, j) < n * n <= 0x4000_0000
    ensures RowAt(power, BlockConvert(power, i, j)) == i && ColAt(power, BlockConvert(power, i, j)) == j
    ensures RowAt(power, z) < n && ColAt(power, z) < n && BlockConvert(power, RowAt(power, z), ColAt(power, z)) == z
  {
    hide Index, RowAt, ColAt, Size, BlockConvert;
    BlockConvertIsIndex(power, i, j);
    IndexInRange(power, n, i, j);
    IndexThere(power, i, j);
    IndexBack(power, z);
    IndexInRange(power, n, RowAt(power, z), ColAt(power, z));
    BlockConvertIsIndex(power, RowAt(power, z), ColAt(power, z));
    SquareUpTo(n, MAX_N);
  }

  lemma BlockConvertQuadrant(power: nat, n: nat, i: nat, j: nat, r: nat, c: nat)
    requires Size(power, n) && Pow2(power) < n <= MAX_N && i < n / 2 && j < n / 2 && r <= 1 && c <= 1
    ensures BlockConvert(power, i + r * (n / 2), j + c * (n / 2))
         == (2 * r + c) * (n / 2 * (n / 2)) + BlockConvert(power, i, j)
  {
    hide Index, BlockConvert;
    BlockConvertIsIndex(power, i, j);
    BlockConvertIsIndex(power, i + r * (n / 2), j + c * (n / 2));
    IndexQuadrant(power, n, i, j, r, c);
  }
}
