/** The ONNX Runtime adapter (`OrtInferenceEngine::Impl`): one
    `TensorInfo` and one name per declared input and output, fixed at
    construction, and a `run` that wraps the caller's buffers as runtime
    tensors, choosing per slot between the declared shape and an override
    given at call time.

    The session is foreign code: its declared inputs and outputs reach the
    constructor as a `SessionInfo`, and whether tensor creation or the run
    itself throws reaches `Run` as a parameter. */
module OrtEngine {
  import opened Common
  import opened Arith
  import opened TensorInfo

  /** One input or output as the session declares it. */
  datatype SlotDecl = SlotDecl(name: string, shape: seq<int>)

  /** The declared inputs and outputs of a loaded session, in index order. */
  datatype SessionInfo = SessionInfo(inputs: seq<SlotDecl>, outputs: seq<SlotDecl>)

  /** A tensor as handed to the runtime: the caller's buffer, the element
      count passed to `CreateTensor` and the shape. */
  datatype OrtValue = OrtValue(data: Ptr, elementCount: int, shape: seq<int>)

  /** Slot `i`'s override shape: nothing when the caller passed a null
      override array. */
  function Slot(shapes: Option<seq<seq<int>>>, i: nat): Option<seq<int>>
    requires shapes.Some? ==> i < |shapes.value|
  {
    if shapes.Some? then Some(shapes.value[i]) else None
  }

  /** An override array, when present, has an entry per slot holding at
      least the declared rank of that slot: `run` reads exactly that many
      values from it. */
  predicate Covers(infos: seq<TensorInfo>, shapes: Option<seq<seq<int>>>)
  {
    shapes.Some? ==>
      |infos| <= |shapes.value| && forall i :: 0 <= i < |infos| ==> |infos[i].shape| <= |shapes.value[i]|
  }

  /** The tensor `run` builds for one slot. With no override, or a
      declared rank of 0, the declared shape and cached count; otherwise
      the first `rank` override values and their product, unchecked: no
      negative sentinel and no clamping. */
  function Resolve(info: TensorInfo, data: Ptr, override: Option<seq<int>>): (v: OrtValue)
    requires override.Some? ==> |info.shape| <= |override.value|
    ensures v.data == data && |v.shape| == |info.shape|
    ensures (override.None? || |info.shape| == 0) ==> v.shape == info.shape && v.elementCount == info.elementCount
    ensures (override.Some? && |info.shape| > 0) ==>
      v.shape == override.value[..|info.shape|] && v.elementCount == Product(v.shape)
  {
    if override.Some? && |info.shape| > 0 then
      var shape := override.value[..|info.shape|];
      OrtValue(data, Product(shape), shape)
    else
      OrtValue(data, info.elementCount, info.shape)
  }

  /** The running product of `run`'s inner loop over the override values. */
  method OverrideCount(shape: seq<int>) returns (count: int)
    ensures count == Product(shape)
  {
    count := 1;
    var j := 0;
    while j < |shape|
      invariant 0 <= j <= |shape|
      invariant count == Product(shape[..j])
    {
      ProductStep(shape, j);
      count := count * shape[j];
      j := j + 1;
    }
    assert shape[..j] == shape;
  }

  /** One of the two slot loops of `run`: tensor `i` wraps buffer `i` with
      the shape and count resolved for slot `i`. */
  method BuildValues(infos: seq<TensorInfo>, data: seq<Ptr>, shapes: Option<seq<seq<int>>>)
    returns (values: seq<OrtValue>)
    requires |infos| <= |data|
    requires Covers(infos, shapes)
    ensures |values| == |infos|
    ensures forall i :: 0 <= i < |infos| ==> values[i] == Resolve(infos[i], data[i], Slot(shapes, i))
  {
    values := [];
    var i := 0;
    while i < |infos|
      invariant 0 <= i <= |infos|
      invariant |values| == i
      invariant forall j :: 0 <= j < i ==> values[j] == Resolve(infos[j], data[j], Slot(shapes, j))
    {
      var info := infos[i];
      var count := info.elementCount;
      var shape := info.shape;
      if shapes.Some? && |info.shape| > 0 {
        shape := shapes.value[i][..|info.shape|];
        count := OverrideCount(shape);
      }
      values := values + [OrtValue(data[i], count, shape)];
      i := i + 1;
    }
  }

  class Engine {
    const inputCount: nat
    const outputCount: nat
    const inputInfo: seq<TensorInfo>
    const inputNames: seq<string>
    const outputInfo: seq<TensorInfo>
    const outputNames: seq<string>

    /** One info and one name per slot, each info consistent. Every field
        is `const`: nothing after construction changes them. */
    ghost predicate Valid()
    {
      && |inputInfo| == |inputNames| == inputCount
      && |outputInfo| == |outputNames| == outputCount
      && (forall i :: 0 <= i < inputCount ==> inputInfo[i].Valid())
      && (forall i :: 0 <= i < outputCount ==> outputInfo[i].Valid())
    }

    /** The constructor, once the session is created: slot `i`'s info is
        built from the shape the session declares for it, and its name is
        the declared name. */
    constructor (session: SessionInfo)
      ensures Valid()
      ensures inputCount == |session.inputs| && outputCount == |session.outputs|
      ensures forall i :: 0 <= i < inputCount ==>
        inputInfo[i] == Make(session.inputs[i].shape) && inputNames[i] == session.inputs[i].name
      ensures forall i :: 0 <= i < outputCount ==>
        outputInfo[i] == Make(session.outputs[i].shape) && outputNames[i] == session.outputs[i].name
    {
      var inInfo, inNames := Describe(session.inputs);
      var outInfo, outNames := Describe(session.outputs);
      inputCount, outputCount := |session.inputs|, |session.outputs|;
      inputInfo, inputNames := inInfo, inNames;
      outputInfo, outputNames := outInfo, outNames;
    }

    /** `run`: build one runtime tensor per input and per output, tensor
        `i` backed by caller buffer `i`, then run the session. The runtime
        may throw, while creating a tensor or while running; the stored
        infos never change. */
    method Run(inputData: seq<Ptr>, outputData: seq<Ptr>,
               inputShapes: Option<seq<seq<int>>>, outputShapes: Option<seq<seq<int>>>,
               failure: Option<string>)
      returns (inputs: seq<OrtValue>, outputs: seq<OrtValue>, o: Outcome)
      requires Valid()
      requires inputCount <= |inputData| && outputCount <= |outputData|
      requires Covers(inputInfo, inputShapes) && Covers(outputInfo, outputShapes)
      ensures |inputs| == inputCount && |outputs| == outputCount
      ensures forall i :: 0 <= i < inputCount ==>
        inputs[i] == Resolve(inputInfo[i], inputData[i], Slot(inputShapes, i))
      ensures forall i :: 0 <= i < outputCount ==>
        outputs[i] == Resolve(outputInfo[i], outputData[i], Slot(outputShapes, i))
      ensures failure.None? ==> o == Completed
      ensures failure.Some? ==> o == Thrown(failure.value)
    {
      inputs := BuildValues(inputInfo, inputData, inputShapes);
      outputs := BuildValues(outputInfo, outputData, outputShapes);
      o := if failure.Some? then Thrown(failure.value) else Completed;
    }
  }

  /** One of the two constructor loops: a `TensorInfo` and a name per
      declared slot, in order. */
  method Describe(decls: seq<SlotDecl>) returns (infos: seq<TensorInfo>, names: seq<string>)
    ensures |infos| == |names| == |decls|
    ensures forall i :: 0 <= i < |decls| ==> infos[i] == Make(decls[i].shape) && infos[i].Valid()
    ensures forall i :: 0 <= i < |decls| ==> names[i] == decls[i].name
  {
    infos, names := [], [];
    var i := 0;
    while i < |decls|
      invariant 0 <= i <= |decls|
      invariant |infos| == |names| == i
      invariant forall j :: 0 <= j < i ==> infos[j] == Make(decls[j].shape) && infos[j].Valid()
      invariant forall j :: 0 <= j < i ==> names[j] == decls[j].name
    {
      var count := GetElementCount(decls[i].shape);
      infos := infos + [TensorInfo(decls[i].shape, count)];
      names := names + [decls[i].name];
      i := i + 1;
    }
  }

  /** Overriding a fully known shape with itself (any extra values are
      ignored) builds the same tensor as no override, as long as the
      product fits an `int`. */
  lemma {:induction false} SelfOverrideChangesNothing(shape: seq<int>, extra: seq<int>, data: Ptr)
    requires |shape| > 0
    requires forall i :: 0 <= i < |shape| ==> 0 <= shape[i]
    requires Product(shape) <= INT32_MAX
    ensures Resolve(Make(shape), data, Some(shape + extra)) == Resolve(Make(shape), data, None)
  {
    ElementCountCases(shape);
    assert (shape + extra)[..|shape|] == shape;
  }

  /** The declared shape [1, -1] of the dynamic-shape test model: without
      an override the runtime is handed the count -1; the override
      [1, 200] resolves it to 200 elements. */
  lemma DynamicInputResolved(data: Ptr)
    ensures Resolve(Make([1, -1]), data, None) == OrtValue(data, -1, [1, -1])
    ensures Resolve(Make([1, -1]), data, Some([1, 200])) == OrtValue(data, 200, [1, 200])
  {
    DynamicShapeExample();
    assert [1, 200][..2] == [1, 200];
    assert Product([1, 200]) == 200 by {
      assert [1, 200][..1] == [1];
      assert [1][..0] == [];
    }
  }

  /** The override product is unchecked: a negative override value gives
      a signed count rather than the sentinel -1. */
  lemma NegativeOverrideUnchecked(data: Ptr)
    ensures Resolve(Make([1, -1]), data, Some([2, -3])).elementCount == -6
  {
    assert [2, -3][..2] == [2, -3];
    assert Product([2, -3]) == -6 by {
      assert [2, -3][..1] == [2];
      assert [2][..0] == [];
    }
  }
}
