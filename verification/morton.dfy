/**
 The mixed layout of strassen.cpp and matmul.cpp: blocks of 2^POWER x 2^POWER cells, row-major inside,
 and the blocks themselves in Z order.  z_convert works on machine words; everything else is stated
 on integers.
 */
module Morton {

  // ---------------------------------------------------------------- z_convert on 32-bit words

  /** Double the distance between the bits of x, four times over, with the masks Q[3]..Q[0] and the
      shifts S[3]..S[0]. */
  function Spread(x: bv32): bv32 {
    var x3 := (x | (x << 8)) & 0x00FF00FF;
    var x2 := (x3 | (x3 << 4)) & 0x0F0F0F0F;
    var x1 := (x2 | (x2 << 2)) & 0x33333333;
    (x1 | (x1 << 1)) & 0x55555555
  }

  function ZWord(row: bv32, col: bv32): bv32 {
    Join(Spread(row), Spread(col))
  }

  function Join(row: bv32, col: bv32): bv32 {
    col | (row << 1)
  }

  /** z with two more bits. */
  function Append(z: bv32, u: bv32, v: bv32): bv32 {
    (z << 2) | (u << 1) | v
  }

  /** The number a word stands for. */
  function ToInt(b: bv32): nat
    decreases b
  {
    if b == 0 then 0 else
      assert b >> 1 < b;
      2 * ToInt(b >> 1) + Bit(b)
  }

  function Bit(b: bv32): nat {
    if b & 1 == 1 then 1 else 0
  }

  function ToWord(n: nat): bv32 {
    if n == 0 then 0 else (ToWord(n / 2) << 1) | (if n % 2 == 1 then 1 else 0)
  }

  /** Bits of r and c in turn, c's lowest. */
  function Interleave(r: nat, c: nat): nat {
    if r == 0 && c == 0 then 0 else 4 * Interleave(r / 2, c / 2) + 2 * (r % 2) + c % 2
  }

  /** The lowest bit of each word goes to the two lowest places; the rest is two places up. */
  lemma SpreadStep(r: bv32, c: bv32)
    requires r <= 0xFFFF && c <= 0xFFFF
    ensures Join(Spread(r), Spread(c)) == Append(Join(Spread(r >> 1), Spread(c >> 1)), r & 1, c & 1)
    ensures Join(Spread(r >> 1), Spread(c >> 1)) <= 0x3FFFFFFF
  {
  }

  lemma ZStep(r: bv32, c: bv32)
    requires r <= 0xFFFF && c <= 0xFFFF
    ensures ZWord(r, c) == Append(ZWord(r >> 1, c >> 1), r & 1, c & 1)
    ensures ZWord(r >> 1, c >> 1) <= 0x3FFFFFFF
  {
    hide Spread, Join, Append;
    SpreadStep(r, c);
  }

  lemma ShiftBit(b: bv32, v: bv32)
    requires b <= 0x7FFFFFFF && v <= 1
    ensures ((b << 1) | v) >> 1 == b && ((b << 1) | v) & 1 == v
    ensures (b << 1) | v == 0 <==> b == 0 && v == 0
  {
  }

  /** Appending a bit doubles the number and adds it. */
  lemma ToIntShift(b: bv32, v: bv32)
    requires b <= 0x7FFFFFFF && v <= 1
    ensures ToInt((b << 1) | v) == 2 * ToInt(b) + Bit(v)
  {
    ShiftBit(b, v);
    BitOf(b, v);
    assert ToInt(0) == 0;
  }

  lemma BitOf(b: bv32, v: bv32)
    requires b <= 0x7FFFFFFF && v <= 1
    ensures Bit((b << 1) | v) == Bit(v) && (Bit(v) == 0 <==> v == 0)
  {
  }

  lemma TwoShifts(z: bv32, u: bv32, v: bv32)
    requires z <= 0x3FFFFFFF && u <= 1 && v <= 1
    ensures Append(z, u, v) == (((z << 1) | u) << 1) | v && (z << 1) | u <= 0x7FFFFFFF
  {
  }

  lemma LowBit(x: bv32)
    ensures x & 1 <= 1 && Bit(x & 1) == Bit(x) && (x <= 0xFFFF ==> x >> 1 <= 0x7FFF)
  {
  }

  /** For coordinates below 65536 the masks and shifts interleave the bits. */
  lemma {:induction false} ZWordInterleaves(r: bv32, c: bv32)
    requires r <= 0xFFFF && c <= 0xFFFF
    ensures ToInt(ZWord(r, c)) == Interleave(ToInt(r), ToInt(c))
    decreases r, c
  {
    hide ZWord, Bit, ToInt;
    Halves(r);
    Halves(c);
    if r == 0 && c == 0 {
      ZeroWord();
    } else {
      HalfIsLess(r, c);
      LowBit(r);
      LowBit(c);
      ZWordInterleaves(r >> 1, c >> 1);
      ZWordStep(r, c);
    }
  }

  lemma ZeroWord()
    ensures ToInt(ZWord(0, 0)) == 0
  {
  }

  lemma ZWordStep(r: bv32, c: bv32)
    requires r <= 0xFFFF && c <= 0xFFFF
    ensures ToInt(ZWord(r, c)) == 4 * ToInt(ZWord(r >> 1, c >> 1)) + 2 * Bit(r) + Bit(c)
  {
    hide ZWord, Bit, ToInt, Append;
    LowBit(r);
    LowBit(c);
    ZStep(r, c);
    var z, u, v := ZWord(r >> 1, c >> 1), r & 1, c & 1;
    TwoShifts(z, u, v);
    ToIntShift((z << 1) | u, v);
    ToIntShift(z, u);
  }

  lemma HalfIsLess(r: bv32, c: bv32)
    requires r != 0 || c != 0
    ensures r >> 1 < r || (r >> 1 == r && c >> 1 < c)
  {
  }

  lemma Halves(b: bv32)
    ensures ToInt(b) / 2 == ToInt(b >> 1) && ToInt(b) % 2 == Bit(b)
    ensures ToInt(b) == 0 <==> b == 0
  {
    if b == 0 {
      assert b >> 1 == 0 && Bit(b) == 0;
    } else {
      Positive(b);
    }
  }

  lemma {:induction false} Positive(b: bv32)
    requires b != 0
    ensures ToInt(b) > 0
    decreases b
  {
    if b >> 1 == 0 {
      assert b == 1;
    } else {
      assert b >> 1 < b;
      Positive(b >> 1);
    }
  }

  function Half(b: bv32): bv32 {
    b >> 1
  }

  function Shifted(x: bv32, k: nat): bv32 {
    if k == 0 then x else Half(Shifted(x, k - 1))
  }

  lemma AtLeastTwice(b: bv32)
    ensures ToInt(b) >= 2 * ToInt(Half(b))
  {
    if b == 0 {
      assert b >> 1 == 0;
    }
  }

  lemma {:induction false} AtLeastShifted(x: bv32, k: nat)
    ensures ToInt(x) >= Pow2(k) * ToInt(Shifted(x, k))
  {
    hide ToInt, Half;
    if k > 0 {
      AtLeastShifted(x, k - 1);
      AtLeastTwice(Shifted(x, k - 1));
      Doubled(Pow2(k - 1), ToInt(Shifted(x, k - 1)), ToInt(Shifted(x, k)));
    }
  }

  lemma Doubled(p: nat, a: nat, b: nat)
    requires a >= 2 * b
    ensures p * a >= (2 * p) * b
  {
    assert p * a >= p * (2 * b);
  }

  lemma Shifted4(x: bv32, k: nat)
    ensures Shifted(x, k + 4) == Half(Half(Half(Half(Shifted(x, k)))))
  {
    hide Half;
    assert Shifted(x, k + 4) == Half(Shifted(x, k + 3));
    assert Shifted(x, k + 3) == Half(Shifted(x, k + 2));
    assert Shifted(x, k + 2) == Half(Shifted(x, k + 1));
  }

  function Nibble(b: bv32): bv32 {
    b >> 4
  }

  lemma FourHalves(x: bv32)
    ensures Half(Half(Half(Half(x)))) == Nibble(x)
  {
  }

  lemma NotShifted(x: bv32)
    ensures Shifted(x, 0) == x
  {
  }

  lemma Shifted16(x: bv32)
    ensures Shifted(x, 16) == Nibble(Nibble(Nibble(Nibble(x))))
  {
    hide Half, Shifted, Nibble;
    Shifted4(x, 0);
    Shifted4(x, 4);
    Shifted4(x, 8);
    Shifted4(x, 12);
    FourHalves(Shifted(x, 0));
    FourHalves(Shifted(x, 4));
    FourHalves(Shifted(x, 8));
    FourHalves(Shifted(x, 12));
    NotShifted(x);
  }

  lemma Pow2Of16()
    ensures Pow2(16) == 65536
  {
    assert Pow2(8) == 256 && Pow2(12) == 4096;
  }

  lemma HighBits(x: bv32)
    requires x > 0xFFFF
    ensures Nibble(Nibble(Nibble(Nibble(x)))) != 0
  {
  }

  lemma Narrow(x: bv32)
    requires ToInt(x) < 65536
    ensures x <= 0xFFFF
  {
    hide ToInt;
    if x > 0xFFFF {
      hide Shifted, Pow2, Nibble;
      HighBits(x);
      Shifted16(x);
      Positive(Shifted(x, 16));
      AtLeastShifted(x, 16);
      Pow2Of16();
    }
  }

  lemma Wider(x: bv32)
    requires x <= 0xFFFF
    ensures x <= 0x7FFFFFFF
  {
  }

  lemma BitOfOne()
    ensures Bit(0) == 0 && Bit(1) == 1
  {
  }

  lemma {:induction false} ToWordToInt(n: nat)
    requires n < 65536
    ensures ToInt(ToWord(n)) == n && ToWord(n) <= 0xFFFF
  {
    hide ToInt, Bit;
    if n != 0 {
      ToWordToInt(n / 2);
      assert ToWord(n / 2) <= 0x7FFFFFFF by { Wider(ToWord(n / 2)); }
      BitOfOne();
      ToIntShift(ToWord(n / 2), if n % 2 == 1 then 1 else 0);
    } else {
      Halves(0);
    }
    Narrow(ToWord(n));
  }

  /** z_convert as the callers see it. */
  function ZConvert(row: nat, col: nat): (z: nat)
    requires row < 65536 && col < 65536
  {
    ToInt(ZWord(ToWord(row), ToWord(col)))
  }

  lemma ZConvertInterleaves(row: nat, col: nat)
    requires row < 65536 && col < 65536
    ensures ZConvert(row, col) == Interleave(row, col)
  {
    ToWordToInt(row);
    ToWordToInt(col);
    ZWordInterleaves(ToWord(row), ToWord(col));
  }

  // ---------------------------------------------------------------- Z order

  function Pow2(k: nat): (r: nat)
    ensures r >= 1
  {
    if k == 0 then 1 else 2 * Pow2(k - 1)
  }

  /** The other way: the odd bits, and the even bits. */
  function OddBits(z: nat): nat {
    if z == 0 then 0 else 2 * OddBits(z / 4) + z % 4 / 2
  }

  function EvenBits(z: nat): nat {
    if z == 0 then 0 else 2 * EvenBits(z / 4) + z % 2
  }

  lemma {:induction false} Deinterleave(r: nat, c: nat)
    ensures OddBits(Interleave(r, c)) == r && EvenBits(Interleave(r, c)) == c
    decreases r + c
  {
    hide Interleave, OddBits, EvenBits;
    var z := Interleave(r, c);
    InterleaveStep(r, c);
    BitsStep(z);
    if r != 0 || c != 0 {
      Deinterleave(r / 2, c / 2);
      Digits(z, Interleave(r / 2, c / 2), r % 2, c % 2);
    } else {
      BitsStep(0);
      InterleaveStep(0, 0);
    }
  }

  lemma BitsStep(z: nat)
    ensures OddBits(z) == 2 * OddBits(z / 4) + z % 4 / 2
    ensures EvenBits(z) == 2 * EvenBits(z / 4) + z % 2
  {
  }

  lemma Digits(z: nat, h: nat, a: nat, b: nat)
    requires z == 4 * h + 2 * a + b && a <= 1 && b <= 1
    ensures z / 4 == h && z % 4 / 2 == a && z % 2 == b
  {
    Quarters(z, h, 2 * a + b);
    TopBits(2 * a + b, a, b);
    TopBits(z, 2 * h + a, b);
  }

  lemma Quarters(z: nat, h: nat, d: nat)
    requires z == 4 * h + d && d < 4
    ensures z / 4 == h && z % 4 == d
  {
  }

  lemma DigitsOf(z: nat)
    ensures z == 4 * (z / 4) + 2 * (z % 4 / 2) + z % 2 && z % 4 / 2 <= 1 && z % 2 <= 1
  {
    var h, d := z / 4, z % 4;
    assert z == 4 * h + d;
    assert d == 2 * (d / 2) + d % 2;
    TopBits(z, 2 * h + d / 2, d % 2);
  }

  lemma {:induction false} Reinterleave(z: nat)
    ensures Interleave(OddBits(z), EvenBits(z)) == z
  {
    if z == 0 {
      assert OddBits(0) == 0 && EvenBits(0) == 0 && Interleave(0, 0) == 0;
    } else {
      hide OddBits, EvenBits, Interleave;
      Reinterleave(z / 4);
      BitsStep(z);
      DigitsOf(z);
      TopBits(OddBits(z), OddBits(z / 4), z % 4 / 2);
      TopBits(EvenBits(z), EvenBits(z / 4), z % 2);
      InterleaveStep(OddBits(z), EvenBits(z));
    }
  }

  lemma TopBits(x: nat, h: nat, b: nat)
    requires x == 2 * h + b && b <= 1
    ensures x / 2 == h && x % 2 == b
  {
  }

  /** Coordinates below 2^k give positions below 4^k, and a further bit of each coordinate picks the quarter. */
  lemma {:induction false} InterleaveQuarter(k: nat, i: nat, j: nat, r: nat, c: nat)
    requires i < Pow2(k) && j < Pow2(k) && r <= 1 && c <= 1
    ensures Interleave(i, j) < Pow2(k) * Pow2(k)
    ensures Interleave(i + r * Pow2(k), j + c * Pow2(k)) == (2 * r + c) * (Pow2(k) * Pow2(k)) + Interleave(i, j)
  {
    hide Interleave;
    if k == 0 {
      InterleaveStep(r, c);
      InterleaveStep(0, 0);
      assert Interleave(0, 0) == 0;
    } else {
      InterleaveQuarter(k - 1, i / 2, j / 2, r, c);
      QuarterTwiceAsFar(i, j, r, c, Pow2(k - 1));
    }
  }

  lemma QuarterTwiceAsFar(i: nat, j: nat, r: nat, c: nat, h: nat)
    requires i < 2 * h && j < 2 * h && r <= 1 && c <= 1
    requires Interleave(i / 2, j / 2) < h * h
    requires Interleave(i / 2 + r * h, j / 2 + c * h) == (2 * r + c) * (h * h) + Interleave(i / 2, j / 2)
    ensures Interleave(i, j) < (2 * h) * (2 * h)
    ensures Interleave(i + r * (2 * h), j + c * (2 * h)) == (2 * r + c) * ((2 * h) * (2 * h)) + Interleave(i, j)
  {
    hide Interleave;
    InterleaveStep(i, j);
    Split2(i, r, h);
    Split2(j, c, h);
    InterleaveStep(i + r * (2 * h), j + c * (2 * h));
    FourTimes(h, 2 * r + c);
  }

  lemma FourTimes(h: nat, q: nat)
    ensures (2 * h) * (2 * h) == 4 * (h * h) && q * ((2 * h) * (2 * h)) == 4 * (q * (h * h))
  {
  }

  lemma Split2(i: nat, r: nat, h: nat)
    ensures (i + r * (2 * h)) / 2 == i / 2 + r * h && (i + r * (2 * h)) % 2 == i % 2
  {
    assert i + r * (2 * h) == 2 * (i / 2 + r * h) + i % 2;
  }

  lemma InterleaveStep(r: nat, c: nat)
    ensures Interleave(r, c) == 4 * Interleave(r / 2, c / 2) + 2 * (r % 2) + c % 2
  {
  }

  lemma {:induction false} BitsBounded(k: nat, z: nat)
    requires z < Pow2(k) * Pow2(k)
    ensures OddBits(z) < Pow2(k) && EvenBits(z) < Pow2(k)
  {
    if k == 0 {
      assert z == 0 && OddBits(0) == 0 && EvenBits(0) == 0;
    } else {
      var h := Pow2(k - 1);
      assert Pow2(k) == 2 * h;
      hide OddBits, EvenBits, Pow2;
      FourTimes(h, 1);
      DigitsOf(z);
      BitsBounded(k - 1, z / 4);
      BitsStep(z);
    }
  }
}
