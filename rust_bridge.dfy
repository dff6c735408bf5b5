/** The Rust side of the C surface: `From<InferenceEngineResultCode>` and
    the `impl_inference_engine!` macro, over the later TensorFlow Lite
    adapter. A status code becomes a `Result`, with the thread's last
    error message as the payload of an `Err`; the batch setters call the
    single-slot setters in slot order and stop at the first `Err`. */
module CoreSysRs {
  import C = Common
  import opened Arith
  import opened TfLiteShape
  import opened TfLiteRuntime
  import opened TfLiteEngine
  import Sys = CoreSys

  /** `inference_engine_core::Error`, as far as this layer produces it. */
  datatype Error = SysError(message: string)

  /** `Result<(), Error>`. */
  datatype Status = Ok | Err(error: Error)

  /** A slice handed out by `input_data` / `output_data`. */
  datatype Slice = Slice(data: C.Ptr, len: int)

  /** `From<InferenceEngineResultCode> for Result`: `Ok` becomes `Ok(())`;
      `Error` becomes a `SysError` carrying the current last-error
      message. */
  function FromCode(code: C.ResultCode, lastMessage: string): (s: Status)
    ensures s.Ok? <==> code == C.Ok
    ensures s.Err? ==> s.error == SysError(lastMessage)
  {
    match code
    case Ok => Ok
    case Error => Err(SysError(lastMessage))
  }

  /** What a native call that ended with `o` looks like from Rust. */
  function StatusOf(o: C.Outcome): Status
  {
    if o.Completed? then Ok else Err(SysError(o.message))
  }

  /** End to end, the bridge is exact: a call that completes arrives as
      `Ok`, and one that throws arrives as an `Err` carrying the
      exception's own text, whatever the slot held before. */
  lemma BridgeIsExact(o: C.Outcome, before: string)
    ensures FromCode(C.CodeOf(o), if o.Thrown? then o.message else before) == StatusOf(o)
    ensures StatusOf(o).Ok? <==> o.Completed?
  {
  }

  /** The interpreter's answers to the successive resizes of a batch. */
  function Replies(shapes: seq<seq<nat>>, resizes: seq<seq<int> -> ResizeReply>): seq<ResizeReply>
    requires |resizes| == |shapes|
  {
    seq(|shapes|, i requires 0 <= i < |shapes| => resizes[i](Request(shapes[i])))
  }

  /** Every reply that accepts a resize keeps the engine's number of
      inputs and outputs. */
  predicate Adopts(replies: seq<ResizeReply>, inputCount: nat, outputCount: nat)
  {
    forall i :: 0 <= i < |replies| && replies[i].Resized? ==>
      |replies[i].inputs| == inputCount && |replies[i].outputs| == outputCount
  }

  /** How many leading replies accept the resize: the calls a batch
      completes before it stops. */
  function Applied(replies: seq<ResizeReply>): (n: nat)
    ensures n <= |replies|
    ensures forall i :: 0 <= i < n ==> replies[i].Resized?
    ensures n < |replies| ==> !replies[n].Resized?
  {
    if |replies| == 0 || !replies[0].Resized? then 0 else 1 + Applied(replies[1..])
  }

  /** The input shapes the first `n` calls of a batch re-read, call `j`
      from slot `j`. */
  function Reread(replies: seq<ResizeReply>, n: nat): seq<Shape>
    requires n <= |replies|
    requires forall j :: 0 <= j < n ==> replies[j].Resized? && j < |replies[j].inputs|
  {
    seq(n, j requires 0 <= j < n => ShapeOf(replies[j].inputs[j].dims))
  }

  /** The length `input_data` / `output_data` give a slot's slice: Rust's
      `product` of the shape, 1 for an empty shape. */
  function SliceLength(shape: seq<nat>): (len: int)
    ensures len >= 0
  {
    ProductNonNegative(shape);
    Product(shape)
  }

  /** The slice length and the `Shape` count agree except where the two
      policies differ: an empty shape gives a one-element slice but a
      count of 0, and a product past `INT32_MAX` is exact in the slice
      but wrapped in the count. */
  lemma {:induction false} SliceLengthVersusCount(shape: seq<nat>)
    ensures |shape| == 0 ==> SliceLength(shape) == 1 && Count(shape) == 0
    ensures 0 in shape ==> SliceLength(shape) == 0 && Count(shape) == 0
    ensures (|shape| > 0 && Product(shape) <= INT32_MAX) ==> SliceLength(shape) == Count(shape)
  {
    if 0 in shape {
      var k :| 0 <= k < |shape| && shape[k] == 0;
      ProductZero(shape, k);
    } else if |shape| > 0 && Product(shape) <= INT32_MAX {
      ProductNonNegative(shape);
    }
  }

  /** The fields of the raw engine that a batch of reshapes changes, as
      one value. */
  datatype State = State(
    inputShapes: seq<Shape>, outputShapes: seq<Shape>,
    inputData: seq<C.Ptr>, outputData: seq<C.Ptr>,
    inputs: seq<Tensor>, outputs: seq<Tensor>)

  function StateOf(e: Engine): State
    reads e
  {
    State(e.inputShapes, e.outputShapes, e.inputData, e.outputData, e.inputs, e.outputs)
  }

  /** The engine after the first `n` calls of a batch completed, starting
      from `before`: the re-read shapes of slots 0 .. n-1 are in front of
      the old input list and those slots are unbound; the output list
      starts with the shapes the last call re-read, every output is
      unbound, and the runtime tensors are those of the last call. With no
      completed call nothing has changed. */
  ghost predicate AfterBatch(replies: seq<ResizeReply>, n: nat, outputCount: nat, before: State, now: State)
  {
    && n <= |replies| && n <= |before.inputData|
    && (forall j :: 0 <= j < n ==> replies[j].Resized? && j < |replies[j].inputs|)
    && now.inputShapes == Reread(replies, n) + before.inputShapes
    && now.inputData == Nulls(n) + before.inputData[n..]
    && (n == 0 ==> now == before)
    && (n > 0 ==>
      && outputCount <= |now.outputShapes|
      && now.outputShapes[..outputCount] == ShapesOf(replies[n - 1].outputs)
      && now.outputData == Nulls(outputCount)
      && now.inputs == replies[n - 1].inputs && now.outputs == replies[n - 1].outputs)
  }

  /** After a batch, every slot a completed call reshaped reads back the
      shape that call re-read: the calls inserted in slot order, so each
      landed at its own index. */
  lemma AfterBatchReadsBack(replies: seq<ResizeReply>, n: nat, outputCount: nat, before: State, now: State)
    requires AfterBatch(replies, n, outputCount, before, now)
    ensures |now.inputShapes| == n + |before.inputShapes|
    ensures forall j :: 0 <= j < n ==> now.inputShapes[j] == ShapeOf(replies[j].inputs[j].dims)
    ensures now.inputShapes[n..] == before.inputShapes
  {
    assert now.inputShapes[..n] == Reread(replies, n);
  }

  /** One more completed `set_input_shape(i, ...)` call, as the C surface
      describes it, extends the batch by one. */
  lemma AfterBatchStep(replies: seq<ResizeReply>, i: nat, outputCount: nat, before: State, now: State, next: State)
    requires AfterBatch(replies, i, outputCount, before, now)
    requires i < |replies| && i < |before.inputData|
    requires replies[i].Resized? && i < |replies[i].inputs| && |replies[i].outputs| == outputCount
    requires next.inputShapes == Insert(now.inputShapes, i, ShapeOf(replies[i].inputs[i].dims))
    requires next.outputShapes == ShapesOf(replies[i].outputs) + now.outputShapes
    requires next.inputData == now.inputData[i := C.None]
    requires next.outputData == Nulls(outputCount)
    requires next.inputs == replies[i].inputs && next.outputs == replies[i].outputs
    ensures AfterBatch(replies, i + 1, outputCount, before, next)
  {
    RereadSnoc(replies, i);
    InsertAfterPrefix(Reread(replies, i), before.inputShapes, ShapeOf(replies[i].inputs[i].dims));
    UnbindNext(before.inputData, i);
    assert next.outputShapes[..outputCount] == ShapesOf(replies[i].outputs);
  }

  /** The re-read prefix grows by one entry per completed call. */
  lemma RereadSnoc(replies: seq<ResizeReply>, i: nat)
    requires i < |replies|
    requires forall j :: 0 <= j <= i ==> replies[j].Resized? && j < |replies[j].inputs|
    ensures Reread(replies, i + 1) == Reread(replies, i) + [ShapeOf(replies[i].inputs[i].dims)]
  {
  }

  /** Unbinding slot `i` after slots 0 .. i-1 unbinds slots 0 .. i. */
  lemma UnbindNext(ps: seq<C.Ptr>, i: nat)
    requires i < |ps|
    ensures (Nulls(i) + ps[i..])[i := C.None] == Nulls(i + 1) + ps[i + 1..]
  {
  }

  /** A Rust engine value: the raw handle from `create` and the calling
      thread's error slot. */
  class Handle {
    const raw: Engine
    const ctx: Sys.LastError

    constructor (raw: Engine, ctx: Sys.LastError)
      ensures this.raw == raw && this.ctx == ctx
    {
      this.raw := raw;
      this.ctx := ctx;
    }

    ghost predicate Valid()
      reads raw
    {
      raw.Valid()
    }

    /** `input_shape`: the slice built from the pointer and size the C
        getter hands out is exactly the stored dimensions. */
    function InputShape(index: nat): (dims: seq<nat>)
      reads raw
      requires Valid() && index < raw.inputCount
      ensures dims == raw.inputShapes[index].values
    {
      raw.InputShape(index)
    }

    /** `output_shape`: the slice built from the pointer and size the C
        getter hands out is exactly the stored dimensions. */
    function OutputShape(index: nat): (dims: seq<nat>)
      reads raw
      requires Valid() && index < raw.outputCount
      ensures dims == raw.outputShapes[index].values
    {
      raw.OutputShape(index)
    }

    /** `input_shapes`: exactly one entry per input, entry `i` being
        `input_shape(i)`. */
    function InputShapes(): (shapes: seq<seq<nat>>)
      reads raw
      requires Valid()
      ensures |shapes| == raw.inputCount
      ensures forall i :: 0 <= i < raw.inputCount ==> shapes[i] == InputShape(i)
    {
      seq(raw.inputCount, i requires 0 <= i < raw.inputCount && Valid() reads raw => InputShape(i))
    }

    /** `output_shapes`: exactly one entry per output, entry `i` being
        `output_shape(i)`. */
    function OutputShapes(): (shapes: seq<seq<nat>>)
      reads raw
      requires Valid()
      ensures |shapes| == raw.outputCount
      ensures forall i :: 0 <= i < raw.outputCount ==> shapes[i] == OutputShape(i)
    {
      seq(raw.outputCount, i requires 0 <= i < raw.outputCount && Valid() reads raw => OutputShape(i))
    }

    /** `input_data`: the slot's pointer, with a length computed from its
        shape. */
    function InputData(index: nat): (s: Slice)
      reads raw
      requires Valid() && index < raw.inputCount
      ensures s.data == raw.InputData(index) && s.len == SliceLength(InputShape(index))
    {
      Slice(raw.InputData(index), SliceLength(InputShape(index)))
    }

    /** `output_data`: the slot's pointer, with a length computed from its
        shape. */
    function OutputData(index: nat): (s: Slice)
      reads raw
      requires Valid() && index < raw.outputCount
      ensures s.data == raw.OutputData(index) && s.len == SliceLength(OutputShape(index))
    {
      Slice(raw.OutputData(index), SliceLength(OutputShape(index)))
    }

    /** `input_data_all`: one slice per input. */
    function InputDataAll(): (slices: seq<Slice>)
      reads raw
      requires Valid()
      ensures |slices| == raw.inputCount
      ensures forall i :: 0 <= i < raw.inputCount ==> slices[i] == InputData(i)
    {
      seq(raw.inputCount, i requires 0 <= i < raw.inputCount && Valid() reads raw => InputData(i))
    }

    /** `output_data_all`: one slice per output. */
    function OutputDataAll(): (slices: seq<Slice>)
      reads raw
      requires Valid()
      ensures |slices| == raw.outputCount
      ensures forall i :: 0 <= i < raw.outputCount ==> slices[i] == OutputData(i)
    {
      seq(raw.outputCount, i requires 0 <= i < raw.outputCount && Valid() reads raw => OutputData(i))
    }

    /** `set_input_shape`: the C status converted, so an `Err` carries the
        adapter's own message. */
    method SetInputShape(index: nat, shape: seq<nat>, resize: seq<int> -> ResizeReply) returns (r: Status)
      requires Valid() && index < raw.inputCount
      requires raw.Fits(resize(Request(shape)))
      modifies raw, ctx
      ensures Valid()
      ensures r == StatusOf(ReshapeOutcome(resize(Request(shape))))
      ensures r.Err? ==> ctx.message == r.error.message && unchanged(raw)
      ensures r.Ok? ==>
        var reply := resize(Request(shape));
        && ctx.message == old(ctx.message)
        && raw.inputShapes == Insert(old(raw.inputShapes), index, ShapeOf(reply.inputs[index].dims))
        && raw.outputShapes == ShapesOf(reply.outputs) + old(raw.outputShapes)
        && raw.inputData == old(raw.inputData)[index := C.None]
        && raw.outputData == Nulls(raw.outputCount)
        && raw.inputs == reply.inputs && raw.outputs == reply.outputs
    {
      var code := Sys.SetInputShape(ctx, raw, index, shape, resize);
      r := FromCode(code, ctx.message);
    }

    /** `set_input_shapes`: `set_input_shape(i, shapes[i])` for i = 0, 1,
        ... until one fails. The calls before the failure stay applied
        (`AfterBatch` says how the engine then looks); since each inserts
        at its own index, every completed slot reads back its re-read
        shape. The failure's message is returned. */
    method SetInputShapes(shapes: seq<seq<nat>>, resizes: seq<seq<int> -> ResizeReply>) returns (r: Status)
      requires Valid() && |resizes| == |shapes| <= raw.inputCount
      requires Adopts(Replies(shapes, resizes), raw.inputCount, raw.outputCount)
      modifies raw, ctx
      ensures Valid()
      ensures var replies := Replies(shapes, resizes); var n := Applied(replies);
        && (n == |shapes| ==> r == Ok && ctx.message == old(ctx.message))
        && (n < |shapes| ==> r == StatusOf(ReshapeOutcome(replies[n])) && ctx.message == r.error.message)
        && AfterBatch(replies, n, raw.outputCount, old(StateOf(raw)), StateOf(raw))
    {
      ghost var replies := Replies(shapes, resizes);
      ghost var n := Applied(replies);
      ghost var before := StateOf(raw);
      var i := 0;
      while i < |shapes|
        invariant 0 <= i <= n
        invariant Valid()
        invariant ctx.message == old(ctx.message)
        invariant AfterBatch(replies, i, raw.outputCount, before, StateOf(raw))
      {
        assert replies[i] == resizes[i](Request(shapes[i]));
        r := ApplyNext(replies, before, i, shapes[i], resizes[i]);
        if r.Err? {
          assert i == n by {
            assert !replies[i].Resized?;
          }
          return;
        }
        i := i + 1;
      }
      r := Ok;
    }

    /** One turn of `set_input_shapes`, stated against the whole batch's
        replies: a completed call takes the engine from the state after
        `i` calls to the state after `i + 1`. */
    method ApplyNext(ghost replies: seq<ResizeReply>, ghost before: State, i: nat, shape: seq<nat>,
                     resize: seq<int> -> ResizeReply)
      returns (r: Status)
      requires Valid() && i < |replies| && i < raw.inputCount == |before.inputData|
      requires replies[i] == resize(Request(shape))
      requires Adopts(replies, raw.inputCount, raw.outputCount)
      requires AfterBatch(replies, i, raw.outputCount, before, StateOf(raw))
      modifies raw, ctx
      ensures Valid()
      ensures r == StatusOf(ReshapeOutcome(replies[i]))
      ensures r.Err? ==> ctx.message == r.error.message && unchanged(raw)
      ensures r.Ok? ==>
        && ctx.message == old(ctx.message)
        && AfterBatch(replies, i + 1, raw.outputCount, before, StateOf(raw))
    {
      r := SetInputShape(i, shape, resize);
      if r.Ok? {
        AfterBatchStep(replies, i, raw.outputCount, before, old(StateOf(raw)), StateOf(raw));
      }
    }

    /** `set_output_shape`: always an `Err` with the adapter's refusal. */
    method SetOutputShape(index: nat, shape: seq<nat>) returns (r: Status)
      modifies ctx
      ensures r == Err(SysError("reshape output tensor is not supported"))
      ensures ctx.message == r.error.message
    {
      var code := Sys.SetOutputShape(ctx, raw, index, shape);
      r := FromCode(code, ctx.message);
    }

    /** `set_output_shapes`: stops at the very first call, so it is `Ok`
        only for an empty batch. */
    method SetOutputShapes(shapes: seq<seq<nat>>) returns (r: Status)
      modifies ctx
      ensures |shapes| == 0 ==> r == Ok && ctx.message == old(ctx.message)
      ensures |shapes| > 0 ==> r == Err(SysError("reshape output tensor is not supported"))
    {
      r := Ok;
      var i := 0;
      while i < |shapes| && r.Ok?
        invariant 0 <= i <= |shapes|
        invariant r.Ok? <==> i == 0
        invariant i == 0 ==> ctx.message == old(ctx.message)
        invariant i > 0 ==> r == Err(SysError("reshape output tensor is not supported"))
      {
        r := SetOutputShape(i, shapes[i]);
        i := i + 1;
      }
    }

    /** `set_input_data`: a Rust slice's pointer is never null, so the
        slot is bound and its contents copied; the status is `Ok`. */
    method SetInputData(index: nat, data: C.Address, memory: C.Memory) returns (r: Status)
      requires Valid() && index < raw.inputCount
      requires data in memory && |raw.inputs[index].data| <= |memory[data]|
      modifies raw
      ensures Valid()
      ensures r == Ok
      ensures raw.inputData == old(raw.inputData)[index := C.Some(data)]
      ensures raw.inputs == old(raw.inputs)[index := old(raw.inputs[index]).(data := memory[data][..|old(raw.inputs[index].data)|])]
      ensures raw.inputShapes == old(raw.inputShapes) && raw.outputShapes == old(raw.outputShapes)
      ensures raw.outputData == old(raw.outputData) && raw.outputs == old(raw.outputs)
    {
      var code := Sys.SetInputData(ctx, raw, index, C.Some(data), memory);
      r := FromCode(code, ctx.message);
    }

    /** `set_input_data_all`: binds buffer `i` to input `i` for every
        given buffer; binding never fails, so the batch always completes
        and later inputs keep their bindings. */
    method SetInputDataAll(data: seq<C.Address>, memory: C.Memory) returns (r: Status)
      requires Valid() && |data| <= raw.inputCount
      requires forall i :: 0 <= i < |data| ==> data[i] in memory && |raw.inputs[i].data| <= |memory[data[i]]|
      modifies raw
      ensures Valid()
      ensures r == Ok
      ensures forall i :: 0 <= i < |data| ==> raw.inputData[i] == C.Some(data[i])
      ensures forall i :: 0 <= i < |data| ==> raw.InputData(i) == C.Some(data[i])
      ensures forall i :: |data| <= i < raw.inputCount ==> raw.inputData[i] == old(raw.inputData[i])
      ensures forall i :: 0 <= i < |data| ==>
        raw.inputs[i] == old(raw.inputs[i]).(data := memory[data[i]][..|old(raw.inputs[i].data)|])
      ensures forall i :: |data| <= i < raw.inputCount ==> raw.inputs[i] == old(raw.inputs[i])
      ensures raw.inputShapes == old(raw.inputShapes) && raw.outputShapes == old(raw.outputShapes)
      ensures raw.outputData == old(raw.outputData) && raw.outputs == old(raw.outputs)
    {
      r := Ok;
      var i := 0;
      while i < |data| && r.Ok?
        invariant 0 <= i <= |data|
        invariant r == Ok
        invariant Valid()
        invariant forall j :: 0 <= j < raw.inputCount ==> |raw.inputs[j].data| == |old(raw.inputs[j].data)|
        invariant forall j :: 0 <= j < i ==> raw.inputData[j] == C.Some(data[j])
        invariant forall j :: i <= j < raw.inputCount ==> raw.inputData[j] == old(raw.inputData[j])
        invariant forall j :: 0 <= j < i ==>
          raw.inputs[j] == old(raw.inputs[j]).(data := memory[data[j]][..|old(raw.inputs[j].data)|])
        invariant forall j :: i <= j < raw.inputCount ==> raw.inputs[j] == old(raw.inputs[j])
        invariant raw.inputShapes == old(raw.inputShapes) && raw.outputShapes == old(raw.outputShapes)
        invariant raw.outputData == old(raw.outputData) && raw.outputs == old(raw.outputs)
      {
        r := SetInputData(i, data[i], memory);
        i := i + 1;
      }
    }

    /** `set_output_data`: binds the slot; the status is `Ok`. */
    method SetOutputData(index: nat, data: C.Address) returns (r: Status)
      requires Valid() && index < raw.outputCount
      modifies raw
      ensures Valid()
      ensures r == Ok
      ensures raw.outputData == old(raw.outputData)[index := C.Some(data)]
      ensures raw.inputShapes == old(raw.inputShapes) && raw.outputShapes == old(raw.outputShapes)
      ensures raw.inputData == old(raw.inputData) && raw.inputs == old(raw.inputs)
      ensures raw.outputs == old(raw.outputs)
    {
      var code := Sys.SetOutputData(ctx, raw, index, C.Some(data));
      r := FromCode(code, ctx.message);
    }

    /** `set_output_data_all`: binds buffer `i` to output `i` for every
        given buffer; the batch always completes. */
    method SetOutputDataAll(data: seq<C.Address>) returns (r: Status)
      requires Valid() && |data| <= raw.outputCount
      modifies raw
      ensures Valid()
      ensures r == Ok
      ensures forall i :: 0 <= i < |data| ==> raw.outputData[i] == C.Some(data[i])
      ensures forall i :: 0 <= i < |data| ==> raw.OutputData(i) == C.Some(data[i])
      ensures forall i :: |data| <= i < raw.outputCount ==> raw.outputData[i] == old(raw.outputData[i])
      ensures raw.inputShapes == old(raw.inputShapes) && raw.outputShapes == old(raw.outputShapes)
      ensures raw.inputData == old(raw.inputData) && raw.inputs == old(raw.inputs)
      ensures raw.outputs == old(raw.outputs)
    {
      r := Ok;
      var i := 0;
      while i < |data| && r.Ok?
        invariant 0 <= i <= |data|
        invariant r == Ok
        invariant Valid()
        invariant forall j :: 0 <= j < i ==> raw.outputData[j] == C.Some(data[j])
        invariant forall j :: i <= j < raw.outputCount ==> raw.outputData[j] == old(raw.outputData[j])
        invariant raw.inputShapes == old(raw.inputShapes) && raw.outputShapes == old(raw.outputShapes)
        invariant raw.inputData == old(raw.inputData) && raw.inputs == old(raw.inputs)
        invariant raw.outputs == old(raw.outputs)
      {
        r := SetOutputData(i, data[i]);
        i := i + 1;
      }
    }

    /** `run`: `Ok` exactly when the interpreter's `Invoke` succeeds, with
        the results copied to the buffers bound before the call; no
        binding and no shape changes. */
    method Run(invoke: InvokeReply, memory: C.Memory) returns (r: Status, after: C.Memory)
      requires Valid()
      requires invoke.Invoked? ==>
        |invoke.results| == raw.outputCount
        && forall i :: 0 <= i < raw.outputCount ==> |invoke.results[i]| == |raw.outputs[i].data|
      requires forall i :: 0 <= i < raw.outputCount && raw.outputData[i].Some? ==>
        raw.outputData[i].value in memory && |raw.outputs[i].data| <= |memory[raw.outputData[i].value]|
      modifies raw, ctx
      ensures Valid()
      ensures r == StatusOf(RunOutcome(invoke))
      ensures r.Err? ==> after == memory && ctx.message == r.error.message && unchanged(raw)
      ensures r.Ok? ==>
        && ctx.message == old(ctx.message)
        && after == CopyOut(memory, old(raw.outputData), invoke.results, raw.outputCount)
        && raw.outputs == WithResults(old(raw.outputs), invoke.results)
      ensures raw.inputShapes == old(raw.inputShapes) && raw.outputShapes == old(raw.outputShapes)
      ensures raw.inputData == old(raw.inputData) && raw.outputData == old(raw.outputData)
      ensures raw.inputs == old(raw.inputs)
    {
      var code;
      code, after := Sys.Run(ctx, raw, invoke, memory);
      r := FromCode(code, ctx.message);
    }

    /** `Drop`: destroy the raw engine and unwrap the status. Destroying
        always reports `Ok`, so dropping never panics. */
    method Drop() returns (panicked: bool)
      ensures !panicked
    {
      var code := Sys.DestroyInferenceEngine(ctx, raw);
      var r := FromCode(code, ctx.message);
      panicked := r.Err?;
    }
  }

  /** A batch whose every resize is adopted as requested, with dimensions
      that fit an `int`, reads back exactly the shapes that were set. */
  lemma AdoptedBatchReadsBack(shapes: seq<seq<nat>>, replies: seq<ResizeReply>, n: nat, j: nat)
    requires n <= |replies| && n <= |shapes| && j < n
    requires forall k :: 0 <= k < n ==> replies[k].Resized? && k < |replies[k].inputs|
    requires replies[j].inputs[j].dims == Request(shapes[j])
    requires forall k :: 0 <= k < |shapes[j]| ==> shapes[j][k] <= INT32_MAX
    ensures Reread(replies, n)[j].values == shapes[j]
  {
  }
}
