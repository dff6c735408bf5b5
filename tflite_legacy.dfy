/** The earlier TensorFlow Lite adapter (`TfliteInferenceEngine::Impl`):
    per-slot shapes and nothing else. Data binding is zero-copy:
    `set_input_data` and `set_output_data` install the caller's pointer as
    the tensor's own storage, so the interpreter reads its inputs from, and
    writes its outputs to, the caller's buffers directly.

    Unlike the later adapter, `set_input_shape` stores the requested shape
    BEFORE asking the interpreter, so it stays stored when the resize
    fails; and it inserts every re-read output shape at position 1. */
module TfliteLegacy {
  import opened Common
  import opened TfLiteShape
  import opened TfLiteRuntime

  /** `s` back to front. */
  function Reverse<T>(s: seq<T>): (r: seq<T>)
    ensures |r| == |s|
    ensures forall i :: 0 <= i < |s| ==> r[i] == s[|s| - 1 - i]
  {
    if |s| == 0 then [] else [s[|s| - 1]] + Reverse(s[..|s| - 1])
  }

  /** The output list after the re-read loop of `set_input_shape`: each
      re-read shape in turn is inserted at position 1, so they all end up
      behind the first old entry, last one first. */
  function ReinsertAtOne(previous: seq<Shape>, reread: seq<Shape>): seq<Shape>
    requires |reread| > 0 ==> |previous| > 0
  {
    if |reread| == 0 then previous else previous[..1] + Reverse(reread) + previous[1..]
  }

  /** The storage pointers of a list of tensors, in order. */
  function Storages(tensors: seq<Tensor>): (ps: seq<Ptr>)
    ensures |ps| == |tensors|
    ensures forall i :: 0 <= i < |tensors| ==> ps[i] == tensors[i].storage
  {
    seq(|tensors|, i requires 0 <= i < |tensors| => tensors[i].storage)
  }

  /** One of the two constructor loops: a `Shape` read from each tensor's
      dims, in interpreter order. */
  method ReadShapes(tensors: seq<Tensor>) returns (shapes: seq<Shape>)
    ensures shapes == ShapesOf(tensors)
  {
    shapes := [];
    var i := 0;
    while i < |tensors|
      invariant 0 <= i <= |tensors|
      invariant shapes == ShapesOf(tensors[..i])
    {
      var s := NewShape(tensors[i].dims);
      ShapesOfStep(tensors, i);
      shapes := shapes + [s];
      i := i + 1;
    }
    assert tensors[..i] == tensors;
  }

  class Engine {
    const inputCount: nat
    const outputCount: nat
    var inputShapes: seq<Shape>
    var outputShapes: seq<Shape>
    /** The interpreter's input and output tensors; `storage` is the
        tensor's `data.f`, which the caller may replace. */
    var inputs: seq<Tensor>
    var outputs: seq<Tensor>

    /** The input list is only ever overwritten in place, so it keeps one
        entry per input; the output list only grows. */
    ghost predicate Valid()
      reads this
    {
      && |inputs| == |inputShapes| == inputCount
      && |outputs| == outputCount
      && outputCount <= |outputShapes|
      && (forall s :: s in inputShapes ==> s.Valid())
      && (forall s :: s in outputShapes ==> s.Valid())
    }

    /** The runtime keeps its number of tensors across a resize. */
    predicate Fits(reply: ResizeReply)
    {
      reply.Resized? ==> |reply.inputs| == inputCount && |reply.outputs| == outputCount
    }

    /** The constructor, once the model is loaded and the interpreter built
        (`TfLiteRuntime.BuildOutcome` says how it throws otherwise): one
        shape per tensor in interpreter order. */
    constructor (build: Build)
      requires BuildOutcome(build).Completed?
      ensures Valid()
      ensures inputCount == |build.inputs| && outputCount == |build.outputs|
      ensures inputShapes == ShapesOf(build.inputs) && outputShapes == ShapesOf(build.outputs)
      ensures inputs == build.inputs && outputs == build.outputs
    {
      var inShapes := ReadShapes(build.inputs);
      var outShapes := ReadShapes(build.outputs);
      inputCount, outputCount := |build.inputs|, |build.outputs|;
      inputShapes, outputShapes := inShapes, outShapes;
      inputs, outputs := build.inputs, build.outputs;
      new;
      ValidShapes(build.inputs);
      ValidShapes(build.outputs);
    }

    /** `get_input_shape`: the dimensions stored at `index`, whose cached
        count agrees with them. */
    function InputShape(index: nat): (dims: seq<nat>)
      reads this
      requires Valid() && index < inputCount
      ensures Count(dims) == inputShapes[index].elementCount
    {
      assert inputShapes[index] in inputShapes;
      inputShapes[index].values
    }

    /** `get_output_shape`: the dimensions stored at `index`, whose cached
        count agrees with them. */
    function OutputShape(index: nat): (dims: seq<nat>)
      reads this
      requires Valid() && index < outputCount
      ensures Count(dims) == outputShapes[index].elementCount
    {
      assert outputShapes[index] in outputShapes;
      outputShapes[index].values
    }

    /** `set_input_shape`: store the requested shape at `index` first, then
        resize and reallocate, throwing if either fails (the stored shape
        stays); on success insert every re-read output shape at position
        1. The interpreter is asked for the stored shape narrowed to
        `int`s. */
    method SetInputShape(index: nat, shape: seq<nat>, resize: seq<int> -> ResizeReply) returns (o: Outcome)
      requires Valid() && index < inputCount
      requires Fits(resize(Request(shape)))
      modifies this
      ensures Valid()
      ensures inputShapes == old(inputShapes)[index := Shape(shape, Count(shape))]
      ensures resize(Request(shape)).ResizeRejected? ==>
        && o == Thrown("failed to resize input tensor")
        && outputShapes == old(outputShapes) && inputs == old(inputs) && outputs == old(outputs)
      ensures resize(Request(shape)).AllocationRejected? ==>
        && o == Thrown("failed to allocate tensor buffers")
        && outputShapes == old(outputShapes) && inputs == old(inputs) && outputs == old(outputs)
      ensures resize(Request(shape)).Resized? ==>
        var reply := resize(Request(shape));
        && o == Completed
        && outputShapes == ReinsertAtOne(old(outputShapes), ShapesOf(reply.outputs))
        && inputs == reply.inputs && outputs == reply.outputs
    {
      var s := Assign(shape);
      inputShapes := inputShapes[index := s];
      var reply := resize(Request(s.values));
      if reply.ResizeRejected? {
        return Thrown("failed to resize input tensor");
      }
      if reply.AllocationRejected? {
        return Thrown("failed to allocate tensor buffers");
      }
      inputs, outputs := reply.inputs, reply.outputs;
      ReinsertOutputs(reply.outputs);
      o := Completed;
    }

    /** The loop closing `set_input_shape`: each re-read output shape is
        inserted at position 1, in output order. */
    method ReinsertOutputs(reread: seq<Tensor>)
      requires |reread| == outputCount <= |outputShapes|
      requires forall s :: s in outputShapes ==> s.Valid()
      modifies this`outputShapes
      ensures outputShapes == ReinsertAtOne(old(outputShapes), ShapesOf(reread))
      ensures forall s :: s in outputShapes ==> s.Valid()
    {
      ghost var previous := outputShapes;
      var i := 0;
      while i < outputCount
        invariant 0 <= i <= outputCount
        invariant outputShapes == ReinsertAtOne(previous, ShapesOf(reread[..i]))
        invariant forall s :: s in outputShapes ==> s.Valid()
      {
        var t := NewShape(reread[i].dims);
        ShapesOfStep(reread, i);
        ReinsertStep(previous, ShapesOf(reread[..i]), t);
        ValidInsert(outputShapes, 1, t);
        outputShapes := Insert(outputShapes, 1, t);
        i := i + 1;
      }
      assert reread[..i] == reread;
    }

    /** `set_output_shape`: always refused, nothing changes. */
    method SetOutputShape(index: nat, shape: seq<nat>) returns (o: Outcome)
      ensures o == Thrown("not supported")
    {
      o := Thrown("not supported");
    }

    /** `set_input_data`: the pointer becomes the input tensor's storage,
        nothing is copied. A null pointer leaves the tensor with no
        storage at all. */
    method SetInputData(index: nat, data: Ptr)
      requires Valid() && index < inputCount
      modifies this`inputs
      ensures Valid()
      ensures inputs == old(inputs)[index := old(inputs[index]).(storage := data)]
    {
      inputs := inputs[index := inputs[index].(storage := data)];
    }

    /** `set_output_data`: the pointer becomes the output tensor's storage,
        nothing is copied. */
    method SetOutputData(index: nat, data: Ptr)
      requires Valid() && index < outputCount
      modifies this`outputs
      ensures Valid()
      ensures outputs == old(outputs)[index := old(outputs[index]).(storage := data)]
    {
      outputs := outputs[index := outputs[index].(storage := data)];
    }

    /** `run`: invoke the interpreter, throwing if it fails. The adapter
        copies nothing: the interpreter writes each output through that
        tensor's storage pointer, which is the caller's buffer wherever
        `set_output_data` installed one. */
    method Run(invoke: InvokeReply, memory: Memory) returns (o: Outcome, after: Memory)
      requires Valid()
      requires invoke.Invoked? ==>
        |invoke.results| == outputCount
        && forall i :: 0 <= i < outputCount ==> |invoke.results[i]| == |outputs[i].data|
      requires forall i :: 0 <= i < outputCount && outputs[i].storage.Some? ==>
        outputs[i].storage.value in memory && |outputs[i].data| <= |memory[outputs[i].storage.value]|
      modifies this`outputs
      ensures Valid()
      ensures o == RunOutcome(invoke)
      ensures invoke.InvokeRejected? ==>
        o == Thrown("failed to invoke the interpreter") && after == memory && outputs == old(outputs)
      ensures invoke.Invoked? ==>
        && o == Completed
        && after == CopyOut(memory, Storages(old(outputs)), invoke.results, outputCount)
        && outputs == WithResults(old(outputs), invoke.results)
    {
      if invoke.InvokeRejected? {
        return Thrown("failed to invoke the interpreter"), memory;
      }
      after := CopyOut(memory, Storages(outputs), invoke.results, outputCount);
      outputs := WithResults(outputs, invoke.results);
      o := Completed;
    }
  }

  /** One more turn of the re-read loop: inserting at position 1 extends
      the reversed block at its front. */
  lemma ReinsertStep(previous: seq<Shape>, reread: seq<Shape>, t: Shape)
    requires |previous| > 0
    ensures Insert(ReinsertAtOne(previous, reread), 1, t) == ReinsertAtOne(previous, reread + [t])
  {
    var r := Reverse(reread + [t]);
    assert r == [t] + Reverse(reread);
    InsertAfterPrefix(previous[..1], Reverse(reread) + previous[1..], t);
  }

  /** What the getters read after a successful reshape: output 0 keeps the
      shape it had before (the re-read shapes land behind it), and the
      re-read shapes follow in reverse output order. */
  lemma {:induction false} FirstOutputShapeIsStale(previous: seq<Shape>, reread: seq<Shape>)
    requires |previous| > 0
    ensures ReinsertAtOne(previous, reread)[0] == previous[0]
    ensures |ReinsertAtOne(previous, reread)| == |previous| + |reread|
    ensures forall i :: 1 <= i <= |reread| ==>
      ReinsertAtOne(previous, reread)[i] == reread[|reread| - i]
  {
    if |reread| > 0 {
      var r := ReinsertAtOne(previous, reread);
      assert r == previous[..1] + Reverse(reread) + previous[1..];
    }
  }
}
