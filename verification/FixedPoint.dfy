/** The integer square root of the fixed-point vectors, and the vector length built on it. */
module FixedPoint {

  newtype uint64 = x: int | 0 <= x < 0x1_0000_0000_0000_0000
  newtype int64 = x: int | -0x8000_0000_0000_0000 <= x < 0x8000_0000_0000_0000
  newtype int32 = x: int | -0x8000_0000 <= x < 0x8000_0000

  const RAW_MAX: int32 := 0x7FFF_FFFF
  const RAW_MIN: int32 := -0x8000_0000

  function Square(n: int): int { n * n }

  // 2^(k - 1), and 0 for k == 0: the weight of the root's digit under trial.
  function Weight(k: nat): nat {
    if k == 0 then 0 else if k == 1 then 1 else 2 * Weight(k - 1)
  }

  /**
   The loop state with k digits to go: result is 2 * r * weight while digits remain, and
   the root r itself at the end, value is what is left of v, and r is right up to 2 * weight.
   */
  ghost predicate Extracting(v: int, value: int, result: int, bit: int, r: nat, k: nat) {
    var q := Weight(k);
    && k <= 32
    && bit == Square(q)
    && v == Square(r) + value
    && value >= 0
    && if k == 0 then result == r && v < Square(r + 1) && r < 0x1_0000_0000
       else result == 2 * r * q && v < Square(r + 2 * q) && r + 2 * q <= 0x1_0000_0000
  }

  // Halving the weight quarters the bit.
  lemma NextWeight(k: nat)
    requires k > 0
    ensures Square(Weight(k)) / 4 == Square(Weight(k - 1))
    ensures k > 1 ==> Weight(k) == 2 * Weight(k - 1)
    ensures Weight(k) > 0
  {
    if k > 1 {
      NextWeight(k - 1);
      var h := Weight(k - 1);
      assert Square(2 * h) == 4 * Square(h);
    }
  }

  lemma Expand(r: int, q: int)
    ensures Square(r + q) == Square(r) + 2 * r * q + Square(q)
  {
  }

  lemma HalveResult(r: int, q: int, h: int)
    requires q == 2 * h
    ensures (2 * r * q) / 2 == 2 * r * h
    ensures 2 * r * h + Square(q) == 2 * (r + q) * h
  {
  }

  lemma SquareMonotone(a: int, b: int)
    requires 0 <= a <= b
    ensures Square(a) <= Square(b)
  {
  }

  lemma Constants()
    ensures Square(0) == 0 && Square(1) == 1 && Square(0xFFFF_FFFF) < 0x1_0000_0000_0000_0000
    ensures Weight(0) == 0 && Weight(1) == 1
  {
  }

  lemma ProductAtLeastZero(r: nat, q: nat)
    ensures 2 * r * q >= 0
  {
  }

  // Trying one digit is exact: it belongs to the root just when it fits under what is left.
  lemma ExtractDigit(v: int, value: int, result: int, bit: int, r: nat, k: nat)
    requires Extracting(v, value, result, bit, r, k) && k > 0
    ensures 0 <= result && result + bit < 0x1_0000_0000_0000_0000
    ensures value >= result + bit ==>
              Extracting(v, value - (result + bit), result / 2 + bit, bit / 4, r + Weight(k), k - 1)
    ensures value < result + bit ==> Extracting(v, value, result / 2, bit / 4, r, k - 1)
  {
    hide Square, Weight;
    var q, h := Weight(k), Weight(k - 1);
    Constants();
    NextWeight(k);
    Expand(r, q);
    ProductAtLeastZero(r, q);
    SquareMonotone(r + q, 0xFFFF_FFFF);
    SquareMonotone(0, r);
    if k > 1 {
      HalveResult(r, q, h);
    }
  }

  lemma FirstDigit(v: nat)
    requires v < 0x1_0000_0000_0000_0000
    ensures Extracting(v, v, 0, 0x4000_0000_0000_0000, 0, 32)
  {
    assert Weight(8) == 0x80;
    assert Weight(16) == 0x8000;
    assert Weight(24) == 0x80_0000;
    assert Weight(32) == 0x8000_0000;
  }

  lemma DigitsLeft(k: nat)
    ensures Square(Weight(k)) == 0 <==> k == 0
    ensures Square(Weight(k)) >= 0
  {
  }

  /** The exact floor of the square root, for every 64-bit value, with no overflow on the way. */
  method SqrtFloor(input: uint64) returns (root: uint64)
    ensures Square(root as int) <= input as int < Square(root as int + 1)
    ensures root as int < 0x1_0000_0000
  {
    hide Square, Weight;
    var value := input;
    var result: uint64 := 0;
    var bit: uint64 := 0x4000_0000_0000_0000;
    ghost var k: nat := 32;
    FirstDigit(input as int);
    while bit > value
      invariant value == input && Extracting(input as int, value as int, 0, bit as int, 0, k)
      decreases bit
    {
      DigitsLeft(k);
      ExtractDigit(input as int, value as int, 0, bit as int, 0, k);
      bit := bit / 4;
      k := k - 1;
    }
    ghost var r: nat := 0;
    while bit != 0
      invariant Extracting(input as int, value as int, result as int, bit as int, r, k)
      decreases bit
    {
      DigitsLeft(k);
      ExtractDigit(input as int, value as int, result as int, bit as int, r, k);
      if value >= result + bit {
        value := value - (result + bit);
        result := result / 2 + bit;
        r := r + Weight(k);
      } else {
        result := result / 2;
      }
      bit := bit / 4;
      k := k - 1;
    }
    DigitsLeft(k);
    root := result;
  }

  /** The square root is unique, so what SqrtFloor returns is a function of its input. */
  lemma RootUnique(v: int, a: nat, b: nat)
    requires Square(a) <= v < Square(a + 1) && Square(b) <= v < Square(b + 1)
    ensures a == b
  {
  }

  /**
   The length of a raw vector: the floor of its Euclidean length, or the largest raw value
   when that is bigger. For the pair of minimum values the sum of squares leaves the 64
   signed bits it is made in, and wraps to the unsigned value it is taken for.
   */
  method FxLength(x: int32, y: int32) returns (length: int32)
    ensures length >= 0
    ensures Square(length as int) <= Square(x as int) + Square(y as int)
    ensures Square(x as int) + Square(y as int) < Square(length as int + 1) || length == RAW_MAX
  {
    RawSquares(x as int, y as int);
    var wideX, wideY := x as int64, y as int64;
    var sum := Wrapped((wideX * wideX) as int + (wideY * wideY) as int);
    var root := SqrtFloor(sum);
    if root as int > RAW_MAX as int {
      SquareMonotone(RAW_MAX as int, root as int);
      return RAW_MAX;
    }
    length := root as int32;
  }

  // A number reduced to 64 bits.
  function Wrapped(n: int): (r: uint64)
    ensures 0 <= n < 0x1_0000_0000_0000_0000 ==> r as int == n
  {
    (n % 0x1_0000_0000_0000_0000) as uint64
  }

  /** The sum of squares fits 64 signed bits for every pair but that one. */
  lemma RawSquares(x: int, y: int)
    requires -0x8000_0000 <= x <= 0x7FFF_FFFF && -0x8000_0000 <= y <= 0x7FFF_FFFF
    ensures 0 <= x * x <= 0x4000_0000_0000_0000 && 0 <= y * y <= 0x4000_0000_0000_0000
    ensures x * x + y * y < 0x8000_0000_0000_0000 <==> !(x == -0x8000_0000 && y == -0x8000_0000)
  {
    RawSquare(x);
    RawSquare(y);
  }

  lemma RawSquare(x: int)
    requires -0x8000_0000 <= x <= 0x7FFF_FFFF
    ensures 0 <= x * x <= 0x4000_0000_0000_0000
    ensures x != -0x8000_0000 ==> x * x < 0x4000_0000_0000_0000
  {
    var a := if x < 0 then -x else x;
    assert x * x == a * a;
    SquareMonotone(a, 0x8000_0000);
    if x != -0x8000_0000 { SquareMonotone(a, 0x7FFF_FFFF); }
  }
}
