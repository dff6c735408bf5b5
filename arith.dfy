/** Fixed-width integer behaviour of the C++ element counters. Both shape
    classes accumulate their element count in a variable declared
    `auto element_count = 1`, which makes it a 32-bit `int`: every `*=`
    narrows the product back to 32 bits. */
module Arith {

  const TWO_32: int := 0x1_0000_0000
  const TWO_64: int := 0x1_0000_0000_0000_0000
  const INT32_MIN: int := -0x8000_0000
  const INT32_MAX: int := 0x7fff_ffff

  /** The product of a sequence of integers (1 for the empty sequence). */
  function Product(s: seq<int>): int
  {
    if |s| == 0 then 1 else Product(s[..|s| - 1]) * s[|s| - 1]
  }

  /** Narrowing an integer to a two's-complement 32-bit `int`: the value in
      [INT32_MIN, INT32_MAX] congruent to `x` modulo 2^32. */
  function Wrap32(x: int): (r: int)
    ensures INT32_MIN <= r <= INT32_MAX
    ensures INT32_MIN <= x <= INT32_MAX ==> r == x
  {
    var m := x % TWO_32;
    if m <= INT32_MAX then m else m - TWO_32
  }

  /** Converting a 32-bit `int` to `size_t`: negative values wrap to the top
      of the 64-bit range. */
  function ToSize(x: int): (r: nat)
    requires INT32_MIN <= x <= INT32_MAX
    ensures r < TWO_64
    ensures 0 <= x ==> r == x
    ensures x < 0 ==> r >= TWO_64 + INT32_MIN
  {
    if 0 <= x then x else x + TWO_64
  }

  /** Adding a multiple of 2^32 does not change the wrapped value. */
  lemma {:induction false} Wrap32Shift(x: int, k: int)
    ensures Wrap32(x + k * TWO_32) == Wrap32(x)
  {
    var y := x + k * TWO_32;
    var qx, rx := x / TWO_32, x % TWO_32;
    var qy, ry := y / TWO_32, y % TWO_32;
    assert x == qx * TWO_32 + rx;
    assert y == qy * TWO_32 + ry;
    assert (qy - qx - k) * TWO_32 == rx - ry;
    assert rx == ry;
  }

  /** The wrapped value differs from the exact one by a multiple of 2^32. */
  lemma Wrap32Congruent(x: int) returns (k: int)
    ensures Wrap32(x) == x + k * TWO_32
  {
    var q := x / TWO_32;
    if x % TWO_32 <= INT32_MAX {
      k := -q;
    } else {
      k := -q - 1;
    }
  }

  /** Narrowing after every step of a product gives the same result as
      narrowing once at the end. */
  lemma {:induction false} Wrap32Mul(a: int, b: int)
    ensures Wrap32(Wrap32(a) * b) == Wrap32(a * b)
  {
    var k := Wrap32Congruent(a);
    calc {
      Wrap32(a) * b;
      (a + k * TWO_32) * b;
      a * b + (k * b) * TWO_32;
    }
    Wrap32Shift(a * b, k * b);
  }

  /** A product of non-negative factors is non-negative. */
  lemma {:induction false} ProductNonNegative(s: seq<int>)
    requires forall i :: 0 <= i < |s| ==> 0 <= s[i]
    ensures 0 <= Product(s)
  {
    if |s| > 0 {
      ProductNonNegative(s[..|s| - 1]);
    }
  }

  /** A product of positive factors is positive. */
  lemma {:induction false} ProductPositive(s: seq<int>)
    requires forall i :: 0 <= i < |s| ==> 0 < s[i]
    ensures 0 < Product(s)
  {
    if |s| > 0 {
      ProductPositive(s[..|s| - 1]);
    }
  }

  /** A zero factor makes the whole product zero. */
  lemma {:induction false} ProductZero(s: seq<int>, i: nat)
    requires i < |s| && s[i] == 0
    ensures Product(s) == 0
  {
    if i < |s| - 1 {
      ProductZero(s[..|s| - 1], i);
    }
  }

  /** The product of a prefix one element longer. */
  lemma ProductStep(s: seq<int>, i: nat)
    requires i < |s|
    ensures Product(s[..i + 1]) == Product(s[..i]) * s[i]
  {
    assert s[..i + 1][..i] == s[..i];
  }
}
