/** The `Shape` value of both TensorFlow Lite adapters (the two adapter
    files define it identically): a tensor's dimensions as `size_t`
    values plus a cached element count.

    Policy: clamp-to-zero. Dimensions read from the interpreter are signed
    and a non-positive one is stored as 0; the element count is 0 for an
    empty shape or when any dimension is 0, and otherwise the product of
    the dimensions as accumulated in a 32-bit `int` and then converted to
    `size_t`. */
module TfLiteShape {
  import opened Arith

  /** The stored value of one dimension read from the interpreter. */
  function ClampDim(d: int): nat
  {
    if d > 0 then d else 0
  }

  /** The dimensions a `Shape` keeps when built from raw interpreter dims. */
  function Clamp(dims: seq<int>): (values: seq<nat>)
    ensures |values| == |dims|
    ensures forall i :: 0 <= i < |dims| && dims[i] > 0 ==> values[i] == dims[i]
    ensures forall i :: 0 <= i < |dims| && dims[i] <= 0 ==> values[i] == 0
  {
    if |dims| == 0 then [] else Clamp(dims[..|dims| - 1]) + [ClampDim(dims[|dims| - 1])]
  }

  /** What `count_elements` returns for the stored dimensions. The product
      is taken exactly and narrowed once: `Arith.Wrap32Mul` shows this is
      the same as narrowing after every `*=`. */
  function Count(values: seq<nat>): nat
  {
    if |values| == 0 || 0 in values then 0 else ToSize(Wrap32(Product(values)))
  }

  /** A tensor shape: the dimensions and the cached element count. */
  datatype Shape = Shape(values: seq<nat>, elementCount: nat)
  {
    /** The class invariant: the cache agrees with the dimensions. */
    ghost predicate Valid()
    {
      elementCount == Count(values)
    }
  }

  /** The `Shape` that the constructor from raw dims builds. */
  function ShapeOf(dims: seq<int>): Shape
  {
    Shape(Clamp(dims), Count(Clamp(dims)))
  }

  /** `count_elements`: 0 for an empty shape, 0 at the first zero
      dimension, otherwise the running product in a 32-bit `int`. The
      factors are `size_t`, so `element_count *= v` multiplies modulo 2^64
      and narrows modulo 2^32, which is `Wrap32` of the exact product. */
  method CountElements(values: seq<nat>) returns (n: nat)
    ensures n == Count(values)
  {
    if |values| == 0 {
      return 0;
    }
    var acc := 1;
    var i := 0;
    while i < |values|
      invariant 0 <= i <= |values|
      invariant forall j :: 0 <= j < i ==> values[j] != 0
      invariant acc == Wrap32(Product(values[..i]))
    {
      if values[i] == 0 {
        return 0;
      }
      ProductStep(values, i);
      Wrap32Mul(Product(values[..i]), values[i]);
      acc := Wrap32(acc * values[i]);
      i := i + 1;
    }
    assert values[..i] == values;
    n := ToSize(acc);
  }

  /** The constructor from raw dims: push each dimension, clamped, then
      cache the count. */
  method NewShape(dims: seq<int>) returns (s: Shape)
    ensures s == ShapeOf(dims)
    ensures s.Valid()
  {
    var values: seq<nat> := [];
    var i := 0;
    while i < |dims|
      invariant 0 <= i <= |dims|
      invariant values == Clamp(dims[..i])
    {
      assert dims[..i + 1][..i] == dims[..i];
      values := values + [if dims[i] > 0 then dims[i] else 0];
      i := i + 1;
    }
    assert dims[..i] == dims;
    var n := CountElements(values);
    s := Shape(values, n);
  }

  /** `operator=` from a `size_t` vector: the values are stored as given
      (there is nothing to clamp) and the count is recomputed. */
  method Assign(values: seq<nat>) returns (s: Shape)
    ensures s.values == values
    ensures s.Valid()
  {
    var n := CountElements(values);
    s := Shape(values, n);
  }

  /** Dimensions that are already non-negative come back unchanged. */
  lemma {:induction false} ClampNonNegative(dims: seq<int>)
    requires forall i :: 0 <= i < |dims| ==> 0 <= dims[i]
    ensures Clamp(dims) == dims
  {
    var values := Clamp(dims);
    assert forall i :: 0 <= i < |dims| ==> values[i] == dims[i];
  }

  /** The zero cases of the count: an empty shape, or a zero dimension
      anywhere. */
  lemma CountZeroCases(values: seq<nat>, i: nat)
    requires i < |values| && values[i] == 0
    ensures Count(values) == 0
    ensures Count([]) == 0
  {
    assert values[i] in values;
  }

  /** Without overflow the count is the product of the dimensions, and it is
      positive exactly when every dimension is. */
  lemma {:induction false} CountIsProduct(values: seq<nat>)
    requires |values| > 0
    requires forall i :: 0 <= i < |values| ==> 0 < values[i]
    requires Product(values) <= INT32_MAX
    ensures Count(values) == Product(values)
    ensures Count(values) > 0
  {
    ProductPositive(values);
    assert 0 !in values;
  }

  /** From raw dims: a non-positive dimension makes the count 0; all
      positive dimensions with a product that fits an `int` give the
      product. */
  lemma {:induction false} ShapeOfCount(dims: seq<int>)
    ensures ShapeOf(dims).Valid()
    ensures (|dims| == 0 || exists i :: 0 <= i < |dims| && dims[i] <= 0) ==> ShapeOf(dims).elementCount == 0
    ensures (|dims| > 0 && (forall i :: 0 <= i < |dims| ==> dims[i] > 0) && Product(dims) <= INT32_MAX)
      ==> ShapeOf(dims).elementCount == Product(dims)
  {
    var values := Clamp(dims);
    if exists i :: 0 <= i < |dims| && dims[i] <= 0 {
      var i :| 0 <= i < |dims| && dims[i] <= 0;
      CountZeroCases(values, i);
    }
    if |dims| > 0 && (forall i :: 0 <= i < |dims| ==> dims[i] > 0) && Product(dims) <= INT32_MAX {
      ClampNonNegative(dims);
      CountIsProduct(values);
    }
  }

  /** The 32-bit accumulator overflows: two dimensions of 65536 multiply to
      2^32, which narrows to 0, so a tensor of 2^32 elements counts 0. */
  lemma OverflowToZero()
    ensures Count([65536, 65536]) == 0
  {
    assert Product([65536, 65536]) == TWO_32 by {
      assert [65536, 65536][..1] == [65536];
      assert [65536][..0] == [];
    }
    assert 0 !in [65536, 65536];
  }

  /** ... and 46341 x 46341 = 2147488281 narrows to a negative `int`, which
      converts to a `size_t` close to 2^64. */
  lemma OverflowToHuge()
    ensures Count([46341, 46341]) == TWO_64 - 2147479015
  {
    assert Product([46341, 46341]) == 2147488281 by {
      assert [46341, 46341][..1] == [46341];
      assert [46341][..0] == [];
    }
    assert 0 !in [46341, 46341];
  }
}
