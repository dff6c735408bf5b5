/** The later TensorFlow Lite adapter (`TfLiteInferenceEngine::Impl`):
    per-slot shapes plus per-slot bound pointers, with copy-on-bind for
    inputs and copy-after-run for outputs.

    Shape updates use `vector::emplace`, which INSERTS: every successful
    `set_input_shape` grows the input list by one and the output list by
    `output_count`. Only the first `input_count` / `output_count` entries
    are ever read back through the getters of the C surface. */
module TfLiteEngine {
  import opened Common
  import opened TfLiteShape
  import opened TfLiteRuntime

  /** `n` null pointers. */
  function Nulls(n: nat): (ps: seq<Ptr>)
    ensures |ps| == n
    ensures forall i :: 0 <= i < n ==> ps[i] == None
  {
    if n == 0 then [] else Nulls(n - 1) + [None]
  }

  /** One of the two constructor loops: a `Shape` read from each tensor's
      dims, in interpreter order, and a null binding per slot. */
  method ReadSlots(tensors: seq<Tensor>) returns (shapes: seq<Shape>, bindings: seq<Ptr>)
    ensures shapes == ShapesOf(tensors)
    ensures bindings == Nulls(|tensors|)
  {
    shapes, bindings := [], [];
    var i := 0;
    while i < |tensors|
      invariant 0 <= i <= |tensors|
      invariant shapes == ShapesOf(tensors[..i]) && bindings == Nulls(i)
    {
      var s := NewShape(tensors[i].dims);
      ShapesOfStep(tensors, i);
      shapes := shapes + [s];
      bindings := bindings + [None];
      i := i + 1;
    }
    assert tensors[..i] == tensors;
  }

  /** How the later adapter's `set_input_shape` ends: it throws exactly
      when the interpreter refuses the resize or the reallocation, each
      with its own message. */
  function ReshapeOutcome(reply: ResizeReply): (o: Outcome)
    ensures o.Completed? <==> reply.Resized?
  {
    match reply
    case ResizeRejected => Thrown("failed to resize input tensor")
    case AllocationRejected => Thrown("failed to allocate tensor buffers for resized input tensor")
    case Resized(_, _) => Completed
  }

  class Engine {
    const inputCount: nat
    const outputCount: nat
    var inputShapes: seq<Shape>
    var outputShapes: seq<Shape>
    var inputData: seq<Ptr>
    var outputData: seq<Ptr>
    /** The interpreter's input and output tensors. */
    var inputs: seq<Tensor>
    var outputs: seq<Tensor>

    ghost predicate Valid()
      reads this
    {
      && |inputData| == |inputs| == inputCount
      && |outputData| == |outputs| == outputCount
      && inputCount <= |inputShapes|
      && outputCount <= |outputShapes|
      && (forall s :: s in inputShapes ==> s.Valid())
      && (forall s :: s in outputShapes ==> s.Valid())
    }

    /** The runtime keeps its number of tensors across a resize. */
    predicate Fits(reply: ResizeReply)
    {
      reply.Resized? ==> |reply.inputs| == inputCount && |reply.outputs| == outputCount
    }

    /** The constructor, once the model is loaded and the interpreter built
      (`TfLiteRuntime.BuildOutcome` says how it throws otherwise): one
      shape per tensor in interpreter order, every binding null. */
    constructor (build: Build)
      requires BuildOutcome(build).Completed?
      ensures Valid()
      ensures inputCount == |build.inputs| && outputCount == |build.outputs|
      ensures inputShapes == ShapesOf(build.inputs) && outputShapes == ShapesOf(build.outputs)
      ensures inputData == Nulls(inputCount) && outputData == Nulls(outputCount)
      ensures inputs == build.inputs && outputs == build.outputs
    {
      var inShapes, inData := ReadSlots(build.inputs);
      var outShapes, outData := ReadSlots(build.outputs);
      inputCount, outputCount := |build.inputs|, |build.outputs|;
      inputShapes, outputShapes := inShapes, outShapes;
      inputData, outputData := inData, outData;
      inputs, outputs := build.inputs, build.outputs;
      new;
      ValidShapes(build.inputs);
      ValidShapes(build.outputs);
    }

    /** `get_input_shape`: the dimensions stored at `index`, whose cached
        count agrees with them. */
    function InputShape(index: nat): (dims: seq<nat>)
      reads this
      requires Valid() && index < inputCount
      ensures Count(dims) == inputShapes[index].elementCount
    {
      assert inputShapes[index] in inputShapes;
      inputShapes[index].values
    }

    /** `get_output_shape`: the dimensions stored at `index`, whose cached
        count agrees with them. */
    function OutputShape(index: nat): (dims: seq<nat>)
      reads this
      requires Valid() && index < outputCount
      ensures Count(dims) == outputShapes[index].elementCount
    {
      assert outputShapes[index] in outputShapes;
      outputShapes[index].values
    }

    /** `get_input_data`: the bound pointer, or the interpreter's own
        storage for an unbound slot. */
    function InputData(index: nat): (p: Ptr)
      reads this
      requires Valid() && index < inputCount
      ensures inputData[index].Some? ==> p == inputData[index]
      ensures inputData[index].None? ==> p == inputs[index].storage
    {
      if inputData[index].Some? then inputData[index] else inputs[index].storage
    }

    /** `get_output_data`: the bound pointer, or the interpreter's own
        storage for an unbound slot. */
    function OutputData(index: nat): (p: Ptr)
      reads this
      requires Valid() && index < outputCount
      ensures outputData[index].Some? ==> p == outputData[index]
      ensures outputData[index].None? ==> p == outputs[index].storage
    {
      if outputData[index].Some? then outputData[index] else outputs[index].storage
    }

    /** `set_input_shape`: resize and reallocate first, throwing with no
        change if either fails; then insert the re-read input shape at
        `index`, null that input's binding, insert the re-read output
        shapes at positions 0..output_count-1 and null every output
        binding. */
    method SetInputShape(index: nat, shape: seq<nat>, resize: seq<int> -> ResizeReply) returns (o: Outcome)
      requires Valid() && index < inputCount
      requires Fits(resize(Request(shape)))
      modifies this
      ensures Valid()
      ensures o == ReshapeOutcome(resize(Request(shape)))
      ensures resize(Request(shape)).ResizeRejected? ==>
        o == Thrown("failed to resize input tensor") && unchanged(this)
      ensures resize(Request(shape)).AllocationRejected? ==>
        o == Thrown("failed to allocate tensor buffers for resized input tensor") && unchanged(this)
      ensures resize(Request(shape)).Resized? ==>
        var reply := resize(Request(shape));
        && o == Completed
        && inputShapes == Insert(old(inputShapes), index, ShapeOf(reply.inputs[index].dims))
        && outputShapes == ShapesOf(reply.outputs) + old(outputShapes)
        && inputData == old(inputData)[index := None]
        && outputData == Nulls(outputCount)
        && inputs == reply.inputs && outputs == reply.outputs
    {
      var reply := resize(Request(shape));
      if reply.ResizeRejected? {
        return Thrown("failed to resize input tensor");
      }
      if reply.AllocationRejected? {
        return Thrown("failed to allocate tensor buffers for resized input tensor");
      }
      inputs, outputs := reply.inputs, reply.outputs;
      var s := NewShape(inputs[index].dims);
      inputShapes := Insert(inputShapes, index, s);
      inputData := inputData[index := None];
      ReinsertOutputs(reply.outputs);
      ValidShapes(reply.outputs);
      ValidInsert(old(inputShapes), index, s);
      o := Completed;
    }

    /** The loop closing `set_input_shape`: output i's re-read shape is
        inserted at position i and its binding nulled. */
    method ReinsertOutputs(reread: seq<Tensor>)
      requires |reread| == outputCount == |outputData|
      modifies this`outputShapes, this`outputData
      ensures outputShapes == ShapesOf(reread) + old(outputShapes)
      ensures outputData == Nulls(outputCount)
    {
      var i := 0;
      while i < outputCount
        invariant 0 <= i <= outputCount
        invariant outputShapes == ShapesOf(reread[..i]) + old(outputShapes)
        invariant |outputData| == outputCount
        invariant forall j :: 0 <= j < i ==> outputData[j] == None
      {
        var t := NewShape(reread[i].dims);
        ShapesOfStep(reread, i);
        InsertAfterPrefix(ShapesOf(reread[..i]), old(outputShapes), t);
        outputShapes := Insert(outputShapes, i, t);
        outputData := outputData[i := None];
        i := i + 1;
      }
      assert reread[..i] == reread;
    }

    /** `set_output_shape`: always refused, nothing changes. */
    method SetOutputShape(index: nat, shape: seq<nat>) returns (o: Outcome)
      ensures o == Thrown("reshape output tensor is not supported")
    {
      o := Thrown("reshape output tensor is not supported");
    }

    /** `set_input_data`: record the pointer; a non-null one also has the
        tensor's `bytes / sizeof(float)` floats copied from it into the
        interpreter's storage. Shapes do not change. */
    method SetInputData(index: nat, data: Ptr, memory: Memory)
      requires Valid() && index < inputCount
      requires data.Some? ==> data.value in memory && |inputs[index].data| <= |memory[data.value]|
      modifies this
      ensures Valid()
      ensures inputData == old(inputData)[index := data]
      ensures data.None? ==> inputs == old(inputs)
      ensures data.Some? ==>
        inputs == old(inputs)[index := old(inputs[index]).(data := memory[data.value][..|old(inputs[index].data)|])]
      ensures inputShapes == old(inputShapes) && outputShapes == old(outputShapes)
      ensures outputData == old(outputData) && outputs == old(outputs)
    {
      inputData := inputData[index := data];
      if data.Some? {
        var n := |inputs[index].data|;
        inputs := inputs[index := inputs[index].(data := memory[data.value][..n])];
      }
    }

    /** `set_output_data`: record the pointer only. */
    method SetOutputData(index: nat, data: Ptr)
      requires Valid() && index < outputCount
      modifies this
      ensures Valid()
      ensures outputData == old(outputData)[index := data]
      ensures inputShapes == old(inputShapes) && outputShapes == old(outputShapes)
      ensures inputData == old(inputData) && inputs == old(inputs) && outputs == old(outputs)
    {
      outputData := outputData[index := data];
    }

    /** `run`: invoke the interpreter, throwing with no copy if it fails;
        otherwise copy each bound output's results to its pointer, in slot
        order, and leave unbound outputs in the interpreter's storage. */
    method Run(invoke: InvokeReply, memory: Memory) returns (o: Outcome, after: Memory)
      requires Valid()
      requires invoke.Invoked? ==>
        |invoke.results| == outputCount
        && forall i :: 0 <= i < outputCount ==> |invoke.results[i]| == |outputs[i].data|
      requires forall i :: 0 <= i < outputCount && outputData[i].Some? ==>
        outputData[i].value in memory && |outputs[i].data| <= |memory[outputData[i].value]|
      modifies this
      ensures Valid()
      ensures o == RunOutcome(invoke)
      ensures invoke.InvokeRejected? ==>
        o == Thrown("failed to invoke the interpreter") && after == memory && unchanged(this)
      ensures invoke.Invoked? ==>
        && o == Completed
        && after == CopyOut(memory, outputData, invoke.results, outputCount)
        && outputs == WithResults(old(outputs), invoke.results)
      ensures inputShapes == old(inputShapes) && outputShapes == old(outputShapes)
      ensures inputData == old(inputData) && outputData == old(outputData) && inputs == old(inputs)
    {
      if invoke.InvokeRejected? {
        return Thrown("failed to invoke the interpreter"), memory;
      }
      outputs := WithResults(outputs, invoke.results);
      after := memory;
      var i := 0;
      while i < outputCount
        invariant 0 <= i <= outputCount
        invariant after == CopyOut(memory, outputData, invoke.results, i)
      {
        if outputData[i].Some? {
          after := WriteFront(after, outputData[i].value, outputs[i].data);
        }
        i := i + 1;
      }
      o := Completed;
    }
  }

  /** Setting slots 0, 1, ... in order: `xs[i]` inserted at `i`, one after
      the other. */
  function InsertInOrder<T>(s: seq<T>, xs: seq<T>): (r: seq<T>)
    ensures |r| == |s| + |xs|
  {
    if |xs| == 0 then s else Insert(InsertInOrder(s, xs[..|xs| - 1]), |xs| - 1, xs[|xs| - 1])
  }

  /** In-order inserts put exactly the new entries in front of the old
      ones, so the first `|xs|` slots read back `xs`: the emplace is
      invisible to a caller that sets every slot in index order. */
  lemma {:induction false} InOrderInsertsPrepend<T>(s: seq<T>, xs: seq<T>)
    ensures InsertInOrder(s, xs) == xs + s
  {
    if |xs| > 0 {
      var init := xs[..|xs| - 1];
      InOrderInsertsPrepend(s, init);
      InsertAfterPrefix(init, s, xs[|xs| - 1]);
      assert init + [xs[|xs| - 1]] == xs;
    }
  }

  /** Out of order the emplace shows: after setting slot 1 and then slot 0,
      slot 1 reads back the entry slot 0 had before, not the one just set
      for it. */
  lemma OutOfOrderInsertsShift<T>(a: T, b: T, x: T, y: T)
    ensures Insert(Insert([a, b], 1, y), 0, x)[..2] == [x, a]
  {
  }
}
