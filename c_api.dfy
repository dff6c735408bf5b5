/** The C-callable surface over the later TensorFlow Lite adapter
    (`inference_engine__*`). Every call that may throw is wrapped: it
    returns `Ok` when the adapter call completes and `Error` when it
    throws, never letting the exception through, and on failure stores
    the exception text in the calling thread's last-error slot. Getters
    pass values straight through and never touch the slot.

    The slot is `thread_local`; the model keeps one `LastError` object
    per thread and passes it explicitly. */
module CoreSys {
  import opened Common
  import opened TfLiteShape
  import opened TfLiteRuntime
  import opened TfLiteEngine

  /** One thread's `last_error_message`. */
  class LastError {
    var message: string

    /** Before any failure the slot holds the empty string. */
    constructor ()
      ensures message == ""
    {
      message := "";
    }
  }

  /** The `void **engine` out-parameter of `create`. */
  class EngineCell {
    var engine: Engine?

    constructor ()
      ensures engine == null
    {
      engine := null;
    }
  }

  /** `update_last_error_message`: overwrite the slot. */
  method UpdateLastErrorMessage(ctx: LastError, message: string)
    modifies ctx
    ensures ctx.message == message
  {
    ctx.message := message;
  }

  /** `get_last_error_message`: the text stored by the latest failure on
      this thread, or "" if there was none. */
  method GetLastErrorMessage(ctx: LastError) returns (message: string)
    ensures message == ctx.message
  {
    message := ctx.message;
  }

  /** The `try`/`catch` that closes every status wrapper: the status of
      the call, with the exception text stored on failure only. */
  method Report(ctx: LastError, o: Outcome) returns (code: ResultCode)
    modifies ctx
    ensures code == CodeOf(o)
    ensures o.Thrown? ==> ctx.message == o.message
    ensures o.Completed? ==> ctx.message == old(ctx.message)
  {
    if o.Thrown? {
      UpdateLastErrorMessage(ctx, o.message);
      return Error;
    }
    code := Ok;
  }

  /** `create_inference_engine`: on success the new engine is written to
      the cell and `Ok` returned; if the constructor throws, the message
      is stored, `Error` returned and the cell left unwritten. */
  method CreateInferenceEngine(ctx: LastError, build: Build, cell: EngineCell) returns (code: ResultCode)
    modifies ctx, cell
    ensures code == CodeOf(BuildOutcome(build))
    ensures code == Ok ==>
      && cell.engine != null && fresh(cell.engine) && cell.engine.Valid()
      && cell.engine.inputCount == |build.inputs| && cell.engine.outputCount == |build.outputs|
      && cell.engine.inputShapes == ShapesOf(build.inputs) && cell.engine.outputShapes == ShapesOf(build.outputs)
      && cell.engine.inputData == Nulls(|build.inputs|) && cell.engine.outputData == Nulls(|build.outputs|)
      && cell.engine.inputs == build.inputs && cell.engine.outputs == build.outputs
      && ctx.message == old(ctx.message)
    ensures code == Error ==>
      cell.engine == old(cell.engine) && ctx.message == BuildOutcome(build).message
  {
    var o := BuildOutcome(build);
    if o.Completed? {
      cell.engine := new Engine(build);
    }
    code := Report(ctx, o);
  }

  /** `destroy_inference_engine`: deleting the engine does not throw, so
      the status is always `Ok`. */
  method DestroyInferenceEngine(ctx: LastError, engine: Engine) returns (code: ResultCode)
    ensures code == Ok
  {
    code := Ok;
  }

  /** `get_input_count`. */
  method GetInputCount(engine: Engine) returns (count: nat)
    ensures count == engine.inputCount
  {
    count := engine.inputCount;
  }

  /** `get_output_count`. */
  method GetOutputCount(engine: Engine) returns (count: nat)
    ensures count == engine.outputCount
  {
    count := engine.outputCount;
  }

  /** `get_input_shape`: the out-parameters receive the stored dimensions
      of slot `index` and their number. */
  method GetInputShape(engine: Engine, index: nat) returns (data: seq<nat>, size: nat)
    requires engine.Valid() && index < engine.inputCount
    ensures data == engine.InputShape(index) && size == |data|
  {
    data := engine.inputShapes[index].values;
    size := |data|;
  }

  /** `get_output_shape`: the out-parameters receive the stored
      dimensions of slot `index` and their number. */
  method GetOutputShape(engine: Engine, index: nat) returns (data: seq<nat>, size: nat)
    requires engine.Valid() && index < engine.outputCount
    ensures data == engine.OutputShape(index) && size == |data|
  {
    data := engine.outputShapes[index].values;
    size := |data|;
  }

  /** `set_input_shape`: `Ok` exactly when the interpreter accepts both the
      resize and the reallocation. On `Ok` the re-read shape is what the
      getter now reads at `index`; on `Error` the engine is unchanged and
      the slot holds the reason. */
  method SetInputShape(ctx: LastError, engine: Engine, index: nat, shape: seq<nat>, resize: seq<int> -> ResizeReply)
    returns (code: ResultCode)
    requires engine.Valid() && index < engine.inputCount
    requires engine.Fits(resize(Request(shape)))
    modifies ctx, engine
    ensures engine.Valid()
    ensures code == CodeOf(ReshapeOutcome(resize(Request(shape))))
    ensures code == Error ==>
      ctx.message == ReshapeOutcome(resize(Request(shape))).message && unchanged(engine)
    ensures code == Ok ==>
      var reply := resize(Request(shape));
      && ctx.message == old(ctx.message)
      && engine.inputShapes == Insert(old(engine.inputShapes), index, ShapeOf(reply.inputs[index].dims))
      && engine.outputShapes == ShapesOf(reply.outputs) + old(engine.outputShapes)
      && engine.inputData == old(engine.inputData)[index := None]
      && engine.outputData == Nulls(engine.outputCount)
      && engine.inputs == reply.inputs && engine.outputs == reply.outputs
      && engine.InputShape(index) == ShapeOf(reply.inputs[index].dims).values
  {
    var o := engine.SetInputShape(index, shape, resize);
    code := Report(ctx, o);
  }

  /** `set_output_shape`: always `Error`, with the refusal in the slot. */
  method SetOutputShape(ctx: LastError, engine: Engine, index: nat, shape: seq<nat>) returns (code: ResultCode)
    modifies ctx
    ensures code == Error
    ensures ctx.message == "reshape output tensor is not supported"
  {
    var o := engine.SetOutputShape(index, shape);
    code := Report(ctx, o);
  }

  /** `get_input_data`: the bound pointer, or the interpreter's storage. */
  method GetInputData(engine: Engine, index: nat) returns (data: Ptr)
    requires engine.Valid() && index < engine.inputCount
    ensures data == engine.InputData(index)
    ensures engine.inputData[index].Some? ==> data == engine.inputData[index]
  {
    data := if engine.inputData[index].Some? then engine.inputData[index] else engine.inputs[index].storage;
  }

  /** `get_output_data`: the bound pointer, or the interpreter's storage. */
  method GetOutputData(engine: Engine, index: nat) returns (data: Ptr)
    requires engine.Valid() && index < engine.outputCount
    ensures data == engine.OutputData(index)
    ensures engine.outputData[index].Some? ==> data == engine.outputData[index]
  {
    data := if engine.outputData[index].Some? then engine.outputData[index] else engine.outputs[index].storage;
  }

  /** `set_input_data`: binding never throws, so the status is `Ok` and
      the slot untouched; a non-null pointer is what `get_input_data`
      then returns. */
  method SetInputData(ctx: LastError, engine: Engine, index: nat, data: Ptr, memory: Memory) returns (code: ResultCode)
    requires engine.Valid() && index < engine.inputCount
    requires data.Some? ==> data.value in memory && |engine.inputs[index].data| <= |memory[data.value]|
    modifies engine
    ensures engine.Valid()
    ensures code == Ok
    ensures engine.inputData == old(engine.inputData)[index := data]
    ensures data.Some? ==> engine.InputData(index) == data
    ensures data.None? ==> engine.inputs == old(engine.inputs)
    ensures data.Some? ==>
      engine.inputs == old(engine.inputs)[index := old(engine.inputs[index]).(data := memory[data.value][..|old(engine.inputs[index].data)|])]
    ensures engine.inputShapes == old(engine.inputShapes) && engine.outputShapes == old(engine.outputShapes)
    ensures engine.outputData == old(engine.outputData) && engine.outputs == old(engine.outputs)
  {
    engine.SetInputData(index, data, memory);
    code := Ok;
  }

  /** `set_output_data`: binding never throws, so the status is `Ok`; a
      non-null pointer is what `get_output_data` then returns. */
  method SetOutputData(ctx: LastError, engine: Engine, index: nat, data: Ptr) returns (code: ResultCode)
    requires engine.Valid() && index < engine.outputCount
    modifies engine
    ensures engine.Valid()
    ensures code == Ok
    ensures engine.outputData == old(engine.outputData)[index := data]
    ensures data.Some? ==> engine.OutputData(index) == data
    ensures engine.inputShapes == old(engine.inputShapes) && engine.outputShapes == old(engine.outputShapes)
    ensures engine.inputData == old(engine.inputData) && engine.inputs == old(engine.inputs)
    ensures engine.outputs == old(engine.outputs)
  {
    engine.SetOutputData(index, data);
    code := Ok;
  }

  /** `run`: `Ok` exactly when `Invoke` succeeds, in which case the bound
      outputs have been copied out; on `Error` nothing is copied and the
      slot holds the reason. */
  method Run(ctx: LastError, engine: Engine, invoke: InvokeReply, memory: Memory) returns (code: ResultCode, after: Memory)
    requires engine.Valid()
    requires invoke.Invoked? ==>
      |invoke.results| == engine.outputCount
      && forall i :: 0 <= i < engine.outputCount ==> |invoke.results[i]| == |engine.outputs[i].data|
    requires forall i :: 0 <= i < engine.outputCount && engine.outputData[i].Some? ==>
      engine.outputData[i].value in memory && |engine.outputs[i].data| <= |memory[engine.outputData[i].value]|
    modifies ctx, engine
    ensures engine.Valid()
    ensures code == CodeOf(RunOutcome(invoke))
    ensures code == Error ==>
      ctx.message == "failed to invoke the interpreter" && after == memory && unchanged(engine)
    ensures code == Ok ==>
      && ctx.message == old(ctx.message)
      && after == CopyOut(memory, engine.outputData, invoke.results, engine.outputCount)
      && engine.outputs == WithResults(old(engine.outputs), invoke.results)
    ensures engine.inputShapes == old(engine.inputShapes) && engine.outputShapes == old(engine.outputShapes)
    ensures engine.inputData == old(engine.inputData) && engine.outputData == old(engine.outputData)
    ensures engine.inputs == old(engine.inputs)
  {
    var o;
    o, after := engine.Run(invoke, memory);
    code := Report(ctx, o);
  }

  /** The invalid-model test: when the model bytes cannot be loaded,
      `create` reports `Error` and the thread's message names the step
      that failed. */
  method InvalidModelScenario() returns (code: ResultCode, message: string)
    ensures code == Error && CodeValue(code) == -1
    ensures message == "failed to load model"
  {
    var ctx := new LastError();
    var cell := new EngineCell();
    code := CreateInferenceEngine(ctx, Build(false, false, false, false, [], []), cell);
    message := GetLastErrorMessage(ctx);
  }

  /** The output of the 2x2 matmul test model, in interpreter storage. */
  const MatmulOutput := Tensor([2, 2], Some(102), [0.0, 0.0, 0.0, 0.0])

  /** The 2x2 matmul test model: two [2, 2] inputs and one [2, 2] output. */
  const MatmulBuild := Build(true, true, true, true,
    [Tensor([2, 2], Some(100), [0.0, 0.0, 0.0, 0.0]), Tensor([2, 2], Some(101), [0.0, 0.0, 0.0, 0.0])],
    [MatmulOutput])

  /** The reshaping test on the 2x2 matmul model, with an interpreter that
      adopts every requested shape: after setting the input shapes in slot
      order the getters read them back and the output still reads [2, 2];
      the bound buffers are what the data getters return; and after `run`
      the caller's output buffer holds what the interpreter produced. */
  method ReshapeScenario() returns (inputShapes: seq<seq<nat>>, outputShapes: seq<seq<nat>>,
                                    inputPtrs: seq<Ptr>, outputPtrs: seq<Ptr>, result: seq<real>)
    ensures inputShapes == [[2, 1], [1, 2]]
    ensures outputShapes == [[2, 2]]
    ensures inputPtrs == [Some(1), Some(3)] && outputPtrs == [Some(5)]
    ensures result == [3.0, 4.0, 6.0, 8.0]
  {
    var ctx := new LastError();
    var cell := new EngineCell();
    var code := CreateInferenceEngine(ctx, MatmulBuild, cell);
    var engine := cell.engine;
    assert engine.InputShape(0) == [2, 2] == engine.InputShape(1) == engine.OutputShape(0) by {
      assert Clamp([2, 2]) == [2, 2];
    }
    ReshapeMatmulInputs(ctx, engine);
    var shape0, _ := GetInputShape(engine, 0);
    var shape1, _ := GetInputShape(engine, 1);
    var outShape, _ := GetOutputShape(engine, 0);
    inputShapes, outputShapes := [shape0, shape1], [outShape];
    inputPtrs, outputPtrs, result := BindAndRunMatmul(ctx, engine);
  }

  /** The reshaping step of the test: `set_input_shapes({{2, 1}, {1, 2}})`,
      one slot after the other. */
  method ReshapeMatmulInputs(ctx: LastError, engine: Engine)
    requires engine.Valid() && engine.inputCount == 2 && engine.outputCount == 1
    modifies ctx, engine
    ensures engine.Valid()
    ensures engine.InputShape(0) == [2, 1] && engine.InputShape(1) == [1, 2]
    ensures engine.OutputShape(0) == [2, 2]
    ensures engine.inputs == [Tensor([2, 1], Some(100), [0.0, 0.0]), Tensor([1, 2], Some(101), [0.0, 0.0])]
    ensures engine.outputs == [MatmulOutput]
  {
    ReshapeFirstInput(ctx, engine);
    ReshapeSecondInput(ctx, engine);
  }

  /** `set_input_shape(0, {2, 1})`, adopted by the interpreter. At this
      point the second input is still [2, 2], so the matrix product's
      inner dimensions (1 and 2) disagree; that the interpreter still
      reallocates its tensors here is an assumption about the runtime,
      which the reply below encodes. */
  method ReshapeFirstInput(ctx: LastError, engine: Engine)
    requires engine.Valid() && engine.inputCount == 2 && engine.outputCount == 1
    modifies ctx, engine
    ensures engine.Valid()
    ensures engine.InputShape(0) == [2, 1]
  {
    var resize := (dims: seq<int>) =>
      Resized([Tensor(dims, Some(100), [0.0, 0.0]), Tensor([2, 2], Some(101), [0.0, 0.0, 0.0, 0.0])], [MatmulOutput]);
    assert Request([2, 1]) == [2, 1];
    assert Clamp([2, 1]) == [2, 1];
    var code := SetInputShape(ctx, engine, 0, [2, 1], resize);
  }

  /** `set_input_shape(1, {1, 2})`, adopted by the interpreter: the new
      entry goes in at 1, in front of the old one, so slot 0 keeps
      [2, 1]. */
  method ReshapeSecondInput(ctx: LastError, engine: Engine)
    requires engine.Valid() && engine.inputCount == 2 && engine.outputCount == 1
    requires engine.InputShape(0) == [2, 1]
    modifies ctx, engine
    ensures engine.Valid()
    ensures engine.InputShape(0) == [2, 1] && engine.InputShape(1) == [1, 2]
    ensures engine.OutputShape(0) == [2, 2]
    ensures engine.inputs == [Tensor([2, 1], Some(100), [0.0, 0.0]), Tensor([1, 2], Some(101), [0.0, 0.0])]
    ensures engine.outputs == [MatmulOutput]
  {
    var resize := (dims: seq<int>) =>
      Resized([Tensor([2, 1], Some(100), [0.0, 0.0]), Tensor(dims, Some(101), [0.0, 0.0])], [MatmulOutput]);
    assert Request([1, 2]) == [1, 2];
    assert Clamp([1, 2]) == [1, 2];
    assert Clamp([2, 2]) == [2, 2];
    ghost var first := engine.inputShapes[0];
    var code := SetInputShape(ctx, engine, 1, [1, 2], resize);
    assert engine.inputShapes[0] == first;
  }

  /** The binding and running step of the test: inputs [1, 2] and [3, 4]
      and a zeroed output buffer are bound, and the interpreter produces
      [3, 4, 6, 8]. */
  method BindAndRunMatmul(ctx: LastError, engine: Engine) returns (inputPtrs: seq<Ptr>, outputPtrs: seq<Ptr>, result: seq<real>)
    requires engine.Valid() && engine.inputCount == 2 && engine.outputCount == 1
    requires engine.inputs == [Tensor([2, 1], Some(100), [0.0, 0.0]), Tensor([1, 2], Some(101), [0.0, 0.0])]
    requires engine.outputs == [MatmulOutput]
    modifies ctx, engine
    ensures inputPtrs == [Some(1), Some(3)] && outputPtrs == [Some(5)]
    ensures result == [3.0, 4.0, 6.0, 8.0]
  {
    var memory := map[1 := [1.0, 2.0], 3 := [3.0, 4.0], 5 := [0.0, 0.0, 0.0, 0.0]];
    var code := SetInputData(ctx, engine, 0, Some(1), memory);
    code := SetInputData(ctx, engine, 1, Some(3), memory);
    code := SetOutputData(ctx, engine, 0, Some(5));
    var p0 := GetInputData(engine, 0);
    var p1 := GetInputData(engine, 1);
    var q0 := GetOutputData(engine, 0);
    inputPtrs, outputPtrs := [p0, p1], [q0];
    var after;
    code, after := Run(ctx, engine, Invoked([[3.0, 4.0, 6.0, 8.0]]), memory);
    result := after[5];
  }
}
