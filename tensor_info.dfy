/** `TensorInfo` of the ONNX Runtime adapter: a tensor's declared shape,
    kept verbatim as signed 64-bit dimensions, and its element count.

    Policy: preserve-negative. A negative dimension means "not yet known";
    the count is 0 for an empty shape, -1 when any dimension is negative
    (wherever it appears), and otherwise the product of the dimensions as
    accumulated in a 32-bit `int` (`auto element_count = 1`). */
module TensorInfo {
  import opened Arith

  /** What `get_element_count` returns: although the result type is
      `int64_t`, the value always fits an `int`. */
  function ElementCount(shape: seq<int>): (n: int)
    ensures INT32_MIN <= n <= INT32_MAX
    ensures |shape| == 0 ==> n == 0
  {
    if |shape| == 0 then 0
    else if exists i :: 0 <= i < |shape| && shape[i] < 0 then -1
    else Wrap32(Product(shape))
  }

  /** Both fields are `const`: a `TensorInfo` is a value that never changes
      after construction. */
  datatype TensorInfo = TensorInfo(shape: seq<int>, elementCount: int)
  {
    ghost predicate Valid()
    {
      elementCount == ElementCount(shape)
    }
  }

  /** The constructor: the shape is stored as given, with no clamping. */
  function Make(shape: seq<int>): (info: TensorInfo)
    ensures info.shape == shape
    ensures info.Valid()
  {
    TensorInfo(shape, ElementCount(shape))
  }

  /** `operator==`: shape and count both equal. Since the count is a
      function of the shape, two consistent infos are equal exactly when
      their shapes are. */
  function Equal(a: TensorInfo, b: TensorInfo): (eq: bool)
    ensures a.Valid() && b.Valid() ==> (eq <==> a.shape == b.shape)
  {
    b.shape == a.shape && b.elementCount == a.elementCount
  }

  /** `get_element_count`: 0 for an empty shape, -1 at the first negative
      dimension, otherwise the running product narrowed to 32 bits after
      every step. */
  method GetElementCount(shape: seq<int>) returns (count: int)
    ensures count == ElementCount(shape)
  {
    if |shape| == 0 {
      return 0;
    }
    var acc := 1;
    var i := 0;
    while i < |shape|
      invariant 0 <= i <= |shape|
      invariant forall j :: 0 <= j < i ==> 0 <= shape[j]
      invariant acc == Wrap32(Product(shape[..i]))
    {
      if shape[i] < 0 {
        return -1;
      }
      ProductStep(shape, i);
      Wrap32Mul(Product(shape[..i]), shape[i]);
      acc := Wrap32(acc * shape[i]);
      i := i + 1;
    }
    assert shape[..i] == shape;
    count := acc;
  }

  /** The three cases of the count: 0 for an empty shape; -1 when some
      dimension is negative; with no negative dimension and no overflow,
      the product, which is never -1 (so a zero dimension gives 0,
      distinct from "unknown"). */
  lemma {:induction false} ElementCountCases(shape: seq<int>)
    ensures |shape| == 0 ==> ElementCount(shape) == 0
    ensures (|shape| > 0 && exists i :: 0 <= i < |shape| && shape[i] < 0) ==> ElementCount(shape) == -1
    ensures (|shape| > 0 && (forall i :: 0 <= i < |shape| ==> 0 <= shape[i]) && Product(shape) <= INT32_MAX)
      ==> ElementCount(shape) == Product(shape) && ElementCount(shape) >= 0
  {
    if |shape| > 0 && forall i :: 0 <= i < |shape| ==> 0 <= shape[i] {
      ProductNonNegative(shape);
    }
  }

  /** With overflow the sentinels collide: the fully known shape
      [65535, 65537] has 2^32 - 1 elements, which the 32-bit accumulator
      narrows to -1, the value that means "unknown". */
  lemma KnownShapeReadsUnknown()
    ensures ElementCount([65535, 65537]) == -1
  {
    assert Product([65535, 65537]) == TWO_32 - 1 by {
      assert [65535, 65537][..1] == [65535];
      assert [65535][..0] == [];
    }
  }

  /** A zero dimension with no negative one counts 0, not -1. */
  lemma ZeroIsNotUnknown(shape: seq<int>, k: nat)
    requires k < |shape| && shape[k] == 0
    requires forall i :: 0 <= i < |shape| ==> 0 <= shape[i]
    ensures ElementCount(shape) == 0
  {
    ProductZero(shape, k);
  }

  /** A negative dimension gives -1 wherever it sits, even after a zero. */
  lemma NegativeAnywhere(shape: seq<int>, k: nat)
    requires k < |shape| && shape[k] < 0
    ensures ElementCount(shape) == -1
  {
  }

  /** The count is a function of the shape, so two `TensorInfo`s built from
      shapes are equal exactly when the shapes are. */
  lemma EqualIffSameShape(s: seq<int>, t: seq<int>)
    ensures Equal(Make(s), Make(t)) <==> s == t
  {
  }

  /** The concrete shapes of the dynamic-shape test model: [1, -1] is
      unresolved, [1, 200] has 200 elements. */
  lemma DynamicShapeExample()
    ensures ElementCount([1, -1]) == -1
    ensures ElementCount([1, 200]) == 200
  {
    assert [1, -1][1] < 0;
    assert Product([1, 200]) == 200 by {
      assert [1, 200][..1] == [1];
      assert [1][..0] == [];
    }
  }
}
