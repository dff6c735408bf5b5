# inference-engine: tensor shapes, data binding and the status bridge

This project is a Dafny model of the core of supertone-inc/inference-engine. That core is the layer that sits between
a caller's float buffers and two native inference runtimes (TensorFlow Lite and ONNX Runtime). The model covers:

- **Shape values.** The TensorFlow Lite `Shape` clamps non-positive dimensions to 0 and caches an element count.
  The ONNX Runtime `TensorInfo` keeps negative dimensions as "unknown" and counts them as -1. Both accumulate their
  count in a 32-bit `int` (`common.dfy`, `arith.dfy`, `tflite_shape.dfy`, `tensor_info.dfy`).
- **The two TensorFlow Lite adapters** (`tflite_runtime.dfy`, `tflite_engine.dfy`, `tflite_legacy.dfy`).
  - The later `TfLiteInferenceEngine` copies a bound input when it is bound and copies each bound output after
    `run`.
  - The earlier `TfliteInferenceEngine` installs the caller's pointer as the tensor storage.
  - Both keep their shape lists with `vector::emplace`, which inserts instead of replacing. The model keeps that
    behaviour and proves what callers then observe.
- **The ONNX Runtime adapter** (`ort_engine.dfy`). Construction stores a `TensorInfo` and a name per slot. Its `run`
  chooses, per slot, between the declared shape and an override given at call time.
- **The C-callable surface** `inference_engine__*` (`c_api.dfy`). Every throwing call becomes a status code, and the
  exception text goes into a per-thread last-error slot.
- **The Rust bridge** (`rust_bridge.dfy`). It turns status codes into `Result`s, runs the short-circuiting batch
  setters, and gives data slices a length equal to the product of the slot's shape.
- **The ONNX Runtime C++ system layer** (`ort_sys.dfy`). This is the move-only `Error`, the `Result<T>` struct and
  the move-only engine handle with its `create`.

The native runtimes are foreign code. Each call into them is modelled by the answer it gives, which the operation
receives as a parameter:

- `Build` covers loading and building the interpreter.
- `ResizeReply` covers `ResizeInputTensor` followed by `AllocateTensors`.
- `InvokeReply` covers `Invoke`.
- `SessionInfo` / `SessionReply` and an optional failure message cover ONNX Runtime sessions.

The caller's buffers are a `map` from addresses to float sequences. Pointers are `Option<Address>`. Floats are only
copied, never computed, so `real` stands for `float`.

### Behaviour worth knowing

- **Element counts are 32-bit.** Both counters are declared `auto element_count = 1`, so they are an `int`. The
  `TensorInfo` count is returned as `int64_t` but always fits an `int`.
  - `TfLiteShape.OverflowToZero` and `TfLiteShape.OverflowToHuge` show the TensorFlow Lite count going wrong.
  - `TensorInfo.KnownShapeReadsUnknown` shows a fully known shape counting as "unknown".
- **Setting a shape inserts instead of replacing.**
  - In the later adapter, set slots in index order and every slot reads back its new shape
    (`TfLiteEngine.InOrderInsertsPrepend`). Set them out of order and slots read stale entries
    (`TfLiteEngine.OutOfOrderInsertsShift`).
  - In the earlier adapter, output 0 never changes after a reshape (`TfliteLegacy.FirstOutputShapeIsStale`).
- **Failures do not always leave the engine unchanged.** The earlier adapter stores the requested input shape
  before asking the interpreter, so the shape stays stored when the resize fails.
- **`set_output_shape` is always refused.** Both adapters throw, so the C call always reports `Error` and the Rust
  call always returns `Err`.
- **A reshape round-trips only for dimensions up to `INT32_MAX`.** The requested shape reaches the interpreter as
  `int`s (`TfLiteRuntime.EchoedShapeReadsBack`, `TfLiteRuntime.WideDimensionReadsBackZero`).
- **The C surface is modelled over the later TensorFlow Lite adapter.**
  - `tflite-sys/src/lib.cpp` constructs the earlier class, but it calls `get_input_data` / `get_output_data`,
    which only the later class has.
  - Its create function is named `inference_engine__create_inference_engine`. The header `tflite-sys/include/lib.h`
    and the C tests call it `inference_engine_tflite__create_inference_engine`.
  - `CoreSys.CreateInferenceEngine` models the function as defined.

## Model

| member | source | states |
|---|---|---|
| Common.CodeValue | ort-sys/include/Result.hpp:5-9 | `Ok` is 0 and `Error` is -1, each in both directions |
| Common.CodeOf | core-sys/src/lib.cpp:58-70 | a wrapped call reports `Ok` exactly when the adapter call returns without throwing |
| Arith.Wrap32 | tflite-cpp/src/TfLiteInferenceEngine.cpp:74-83 | narrowing to `int` lands in [INT32_MIN, INT32_MAX] and is the identity inside that range |
| Arith.ToSize | tflite-cpp/src/TfLiteInferenceEngine.cpp:66-87 | an `int` count converted to `size_t` is unchanged when non-negative and lands above 2^64 - 2^31 when negative |
| Arith.Wrap32Mul | tflite-cpp/src/TfLiteInferenceEngine.cpp:76-84 | narrowing after every `*=` equals narrowing the exact product once |
| TfLiteShape.Clamp | tflite-cpp/src/TfLiteInferenceEngine.cpp:19-27 | one value per raw dimension: positive dimensions kept, non-positive ones stored as 0 |
| TfLiteShape.CountElements | tflite-cpp/src/TfLiteInferenceEngine.cpp:66-87 | the loop with early returns computes `Count`: 0 for an empty shape or at a zero dimension, else the 32-bit product as `size_t` |
| TfLiteShape.NewShape | tflite-cpp/src/TfLiteInferenceEngine.cpp:19-27 | the shape built from raw dims is `ShapeOf(dims)`, and its cached count agrees with its values |
| TfLiteShape.Assign | tflite-cpp/src/TfLiteInferenceEngine.cpp:29-34 | assignment stores the values as given and recomputes a consistent count |
| TfLiteShape.ClampNonNegative | tflite-cpp/src/TfLiteInferenceEngine.cpp:22-25 | clamping leaves already non-negative dimensions unchanged |
| TfLiteShape.CountZeroCases | tflite-cpp/src/TfLiteInferenceEngine.cpp:69-81 | an empty shape and a shape with a zero dimension both count 0 |
| TfLiteShape.CountIsProduct | tflite-cpp/src/TfLiteInferenceEngine.cpp:74-86 | with positive dimensions and no overflow the count is the product and positive |
| TfLiteShape.ShapeOfCount | tflite-cpp/src/TfLiteInferenceEngine.cpp:19-27 | a shape from raw dims is consistent, counts 0 when any dim is non-positive, and counts the product when none is and nothing overflows |
| TfLiteShape.OverflowToZero | tflite-cpp/src/TfLiteInferenceEngine.cpp:74-83 | the shape [65536, 65536] (2^32 elements) counts 0 |
| TfLiteShape.OverflowToHuge | tflite-cpp/src/TfLiteInferenceEngine.cpp:74-86 | the shape [46341, 46341] counts 2^64 - 2147479015 after the negative `int` converts to `size_t` |
| TensorInfo.Make | core-cpp/include/inference-engine/TensorInfo.hpp:10-14 | the constructor keeps the shape verbatim, with a count consistent with it |
| TensorInfo.ElementCount | core-cpp/include/inference-engine/TensorInfo.hpp:25-45 | the `int64_t` result always lies in the `int` range, and an empty shape counts 0 |
| TensorInfo.Equal | core-cpp/include/inference-engine/TensorInfo.hpp:16-19 | for consistent infos, `==` holds exactly when the shapes are equal |
| TensorInfo.GetElementCount | core-cpp/include/inference-engine/TensorInfo.hpp:25-45 | the loop with early returns computes `ElementCount`: 0 when empty, -1 at a negative dim, else the 32-bit product |
| TensorInfo.ElementCountCases | core-cpp/include/inference-engine/TensorInfo.hpp:25-45 | 0 for an empty shape, -1 when any dimension is negative, and the non-negative product when none is and nothing overflows |
| TensorInfo.KnownShapeReadsUnknown | core-cpp/include/inference-engine/TensorInfo.hpp:32-41 | the fully known shape [65535, 65537] counts -1, the "unknown" sentinel |
| TensorInfo.ZeroIsNotUnknown | core-cpp/include/inference-engine/TensorInfo.hpp:34-44 | a zero dimension with no negative one counts 0, not -1 |
| TensorInfo.NegativeAnywhere | core-cpp/include/inference-engine/TensorInfo.hpp:34-39 | a negative dimension in any position makes the count -1 |
| TensorInfo.EqualIffSameShape | core-cpp/include/inference-engine/TensorInfo.hpp:16-19 | two constructed infos are `==` exactly when their shapes are equal |
| TensorInfo.DynamicShapeExample | core-cpp/include/inference-engine/TensorInfo.hpp:25-45 | [1, -1] counts -1 and [1, 200] counts 200 |
| TfLiteRuntime.BuildOutcome | tflite-cpp/src/TfLiteInferenceEngine.cpp:93-121 | construction completes exactly when all four steps succeed; a model that fails to load throws "failed to load model" |
| TfLiteRuntime.RunOutcome | tflite-cpp/src/TfLiteInferenceEngine.cpp:236-239 | `run` completes exactly when `Invoke` succeeds, and otherwise throws "failed to invoke the interpreter" |
| TfLiteRuntime.Request | tflite-cpp/src/TfLiteInferenceEngine.cpp:164 | the dims sent to `ResizeInputTensor` are the requested values narrowed to `int`, unchanged up to `INT32_MAX` |
| TfLiteRuntime.Insert | tflite-cpp/src/TfLiteInferenceEngine.cpp:177 | `emplace` at `index` puts the entry there, keeps the entries before it and shifts the rest up by one |
| TfLiteRuntime.CopyOutKeepsBuffers | tflite-cpp/src/TfLiteInferenceEngine.cpp:241-251 | copying outputs out never adds, drops or resizes a caller buffer |
| TfLiteRuntime.CopyOutUntouched | tflite-cpp/src/TfLiteInferenceEngine.cpp:241-251 | a buffer no output is bound to keeps its contents |
| TfLiteRuntime.CopyOutDelivers | tflite-cpp/src/TfLiteInferenceEngine.cpp:241-251 | a bound output's results sit at the front of its buffer unless a later output is bound to the same buffer |
| TfLiteRuntime.EchoedShapeReadsBack | tflite-cpp/src/TfLiteInferenceEngine.cpp:164-178 | when the interpreter adopts the requested dims, the re-read shape equals the requested one for dims up to `INT32_MAX` |
| TfLiteRuntime.WideDimensionReadsBackZero | tflite-cpp/src/TfLiteInferenceEngine.cpp:164-178 | the requested dims [2^32] and [2^31] both read back as [0] |
| TfLiteEngine.ReadSlots | tflite-cpp/src/TfLiteInferenceEngine.cpp:124-139 | the constructor loops build one shape per tensor in interpreter order and a null binding per slot |
| TfLiteEngine.ReshapeOutcome | tflite-cpp/src/TfLiteInferenceEngine.cpp:164-172 | `set_input_shape` completes exactly when both the resize and the reallocation succeed, each failure with its own message |
| TfLiteEngine.Engine.constructor | tflite-cpp/src/TfLiteInferenceEngine.cpp:93-140 | counts, one shape per tensor and all bindings null, with the class invariant established |
| TfLiteEngine.Engine.InputShape | tflite-cpp/src/TfLiteInferenceEngine.cpp:152-155 | the dims stored for the slot, with the cached count agreeing with them |
| TfLiteEngine.Engine.OutputShape | tflite-cpp/src/TfLiteInferenceEngine.cpp:157-160 | the dims stored for the slot, with the cached count agreeing with them |
| TfLiteEngine.Engine.InputData | tflite-cpp/src/TfLiteInferenceEngine.cpp:195-203 | the bound pointer when the slot is bound, else the interpreter tensor's own storage |
| TfLiteEngine.Engine.OutputData | tflite-cpp/src/TfLiteInferenceEngine.cpp:205-213 | the bound pointer when the slot is bound, else the interpreter tensor's own storage |
| TfLiteEngine.Engine.SetInputShape | tflite-cpp/src/TfLiteInferenceEngine.cpp:162-188 | a failure leaves the engine unchanged; a success inserts the re-read input shape at `index`, puts the re-read output shapes in front, and nulls that input's binding and every output binding |
| TfLiteEngine.Engine.ReinsertOutputs | tflite-cpp/src/TfLiteInferenceEngine.cpp:181-187 | inserting output `i` at position `i` for every output prepends the re-read shapes in order and nulls every output binding |
| TfLiteEngine.Engine.SetOutputShape | tflite-cpp/src/TfLiteInferenceEngine.cpp:190-193 | always throws "reshape output tensor is not supported" |
| TfLiteEngine.Engine.SetInputData | tflite-cpp/src/TfLiteInferenceEngine.cpp:215-227 | records the pointer; a non-null one also has the tensor's float count copied from it; nothing else changes |
| TfLiteEngine.Engine.SetOutputData | tflite-cpp/src/TfLiteInferenceEngine.cpp:229-232 | records the pointer and changes nothing else |
| TfLiteEngine.Engine.Run | tflite-cpp/src/TfLiteInferenceEngine.cpp:234-252 | on failure nothing is copied and the engine is unchanged; on success every bound output is copied to its buffer in slot order |
| TfLiteEngine.InOrderInsertsPrepend | tflite-cpp/src/TfLiteInferenceEngine.cpp:177 | setting slots 0, 1, ... in order leaves exactly the new entries in front, so each slot reads back its own |
| TfLiteEngine.OutOfOrderInsertsShift | tflite-cpp/src/TfLiteInferenceEngine.cpp:177 | setting slot 1 and then slot 0 makes slot 1 read slot 0's previous entry |
| TfliteLegacy.ReadShapes | tflite-cpp/src/TfliteInferenceEngine.cpp:125-139 | the constructor loops build one shape per tensor in interpreter order |
| TfliteLegacy.Engine.constructor | tflite-cpp/src/TfliteInferenceEngine.cpp:93-140 | counts and one shape per tensor, with the class invariant established |
| TfliteLegacy.Engine.InputShape | tflite-cpp/src/TfliteInferenceEngine.cpp:152-155 | the dims stored for the slot, with the cached count agreeing with them |
| TfliteLegacy.Engine.OutputShape | tflite-cpp/src/TfliteInferenceEngine.cpp:157-160 | the dims stored for the slot, with the cached count agreeing with them |
| TfliteLegacy.Engine.SetInputShape | tflite-cpp/src/TfliteInferenceEngine.cpp:162-186 | the requested shape is stored whatever happens; a failure changes nothing else; a success re-inserts every output shape at position 1 |
| TfliteLegacy.Engine.ReinsertOutputs | tflite-cpp/src/TfliteInferenceEngine.cpp:178-185 | inserting every re-read output shape at position 1 yields `ReinsertAtOne` |
| TfliteLegacy.Engine.SetOutputShape | tflite-cpp/src/TfliteInferenceEngine.cpp:188-191 | always throws "not supported" |
| TfliteLegacy.Engine.SetInputData | tflite-cpp/src/TfliteInferenceEngine.cpp:193-196 | the pointer becomes that input tensor's storage; nothing is copied |
| TfliteLegacy.Engine.SetOutputData | tflite-cpp/src/TfliteInferenceEngine.cpp:198-201 | the pointer becomes that output tensor's storage; nothing is copied |
| TfliteLegacy.Engine.Run | tflite-cpp/src/TfliteInferenceEngine.cpp:203-209 | `run` completes exactly when `Invoke` does; the results go to the outputs' storage, and so to installed caller buffers |
| TfliteLegacy.ReinsertStep | tflite-cpp/src/TfliteInferenceEngine.cpp:184 | one more insert at position 1 extends the reversed block at its front |
| TfliteLegacy.FirstOutputShapeIsStale | tflite-cpp/src/TfliteInferenceEngine.cpp:178-185 | after a reshape, output 0 keeps its old shape and positions 1.. hold the re-read shapes in reverse order |
| OrtEngine.OverrideCount | ort-cpp/src/OrtInferenceEngine.cpp:65-69 | the inner loop's running product is the product of the override values |
| OrtEngine.BuildValues | ort-cpp/src/OrtInferenceEngine.cpp:54-81 | tensor `i` wraps buffer `i` with the declared shape and count, or with the override and its product when one is given and the rank is positive |
| OrtEngine.Resolve | ort-cpp/src/OrtInferenceEngine.cpp:56-78 | the slot's buffer with the declared rank; the declared shape and cached count without an override or at rank 0, else the override's first `rank` values and their product |
| OrtEngine.Describe | ort-cpp/src/OrtInferenceEngine.cpp:18-24 | one `TensorInfo` and one name per declared slot, in order |
| OrtEngine.Engine.constructor | ort-cpp/src/OrtInferenceEngine.cpp:11-33 | the counts, infos and names are those the session declares |
| OrtEngine.Engine.Run | ort-cpp/src/OrtInferenceEngine.cpp:45-118 | every input and output tensor is resolved per slot; the call throws exactly when the runtime does |
| OrtEngine.SelfOverrideChangesNothing | ort-cpp/src/OrtInferenceEngine.cpp:61-70 | overriding a fully known shape with itself, extra values ignored, builds the same tensor as no override |
| OrtEngine.DynamicInputResolved | ort-cpp/src/OrtInferenceEngine.cpp:56-70 | the declared [1, -1] gives count -1 without an override and 200 with the override [1, 200] |
| OrtEngine.NegativeOverrideUnchecked | ort-cpp/src/OrtInferenceEngine.cpp:65-69 | a negative override value is multiplied in unchecked: [2, -3] gives -6 |
| CoreSys.LastError.constructor | core-sys/src/lib.cpp:8 | before any failure the thread's message is empty |
| CoreSys.UpdateLastErrorMessage | core-sys/src/lib.cpp:10-13 | the slot holds the given message |
| CoreSys.GetLastErrorMessage | core-sys/src/lib.cpp:15-18 | returns the slot's current message |
| CoreSys.Report | core-sys/src/lib.cpp:58-70 | the status is `CodeOf` the outcome; a throw stores its message, and a completion leaves the slot unchanged |
| CoreSys.CreateInferenceEngine | tflite-sys/src/lib.cpp:21-33 | `Ok` exactly when construction completes, with a fresh engine in the cell; otherwise the cell is unwritten and the slot holds the reason |
| CoreSys.DestroyInferenceEngine | core-sys/src/lib.cpp:20-32 | destroying always reports `Ok` |
| CoreSys.GetInputCount | core-sys/src/lib.cpp:34-37 | the engine's input count |
| CoreSys.GetOutputCount | core-sys/src/lib.cpp:39-42 | the engine's output count |
| CoreSys.GetInputShape | core-sys/src/lib.cpp:44-49 | the out-parameters receive the stored dimensions and their number |
| CoreSys.GetOutputShape | core-sys/src/lib.cpp:51-56 | the out-parameters receive the stored dimensions and their number |
| CoreSys.SetInputShape | core-sys/src/lib.cpp:58-70 | `Ok` exactly when the interpreter accepts the resize; on `Ok` the getter reads the re-read shape; on `Error` the engine is unchanged and the slot holds the reason |
| CoreSys.SetOutputShape | core-sys/src/lib.cpp:72-84 | always `Error`, with the refusal in the slot |
| CoreSys.GetInputData | core-sys/src/lib.cpp:86-89 | the bound pointer when there is one, else the interpreter's storage |
| CoreSys.GetOutputData | core-sys/src/lib.cpp:91-94 | the bound pointer when there is one, else the interpreter's storage |
| CoreSys.SetInputData | core-sys/src/lib.cpp:96-108 | always `Ok`; a non-null pointer is what `get_input_data` then returns |
| CoreSys.SetOutputData | core-sys/src/lib.cpp:110-122 | always `Ok`; a non-null pointer is what `get_output_data` then returns |
| CoreSys.Run | core-sys/src/lib.cpp:124-136 | `Ok` exactly when `Invoke` succeeds, with the bound outputs copied; otherwise nothing is copied and the slot holds the reason |
| CoreSys.InvalidModelScenario | tflite-sys/src/lib.test.cpp:83-89 | model bytes that do not load give `Error` (-1) and the message "failed to load model" |
| CoreSys.ReshapeScenario | tflite-sys/src/lib.test.cpp:91-127 | on the 2x2 matmul model, the inputs read [2, 1] and [1, 2] after in-order reshapes and the output reads [2, 2]; the bound pointers are returned; the output buffer ends up [3, 4, 6, 8] |
| CoreSys.ReshapeSecondInput | tflite-sys/src/lib.test.cpp:105-107 | setting slot 1 after slot 0 leaves slot 0's new shape in place and the output shape at [2, 2] |
| CoreSysRs.FromCode | core-sys/src/lib.rs:3-16 | `Ok` converts to `Ok(())`, and `Error` converts to `Err(SysError(m))` with the current last-error message |
| CoreSysRs.BridgeIsExact | core-sys/src/lib.rs:3-16 | end to end, a completed call arrives as `Ok` and a throw arrives as an `Err` carrying the exception's own text |
| CoreSysRs.SliceLength | core-sys/src/lib.rs:115-138 | a slice length is never negative |
| CoreSysRs.SliceLengthVersusCount | core-sys/src/lib.rs:115-138 | for an empty shape the slice length is 1 while the count is 0; a zero dimension gives 0 in both; otherwise they agree up to `INT32_MAX` |
| CoreSysRs.Handle.constructor | tflite/src/lib.rs:16-32 | the value holds the raw engine `create` produced, together with the calling thread's error slot |
| CoreSysRs.Handle.InputShape | core-sys/src/lib.rs:45-54 | the slice built from the C getter's pointer and size is exactly the stored dims |
| CoreSysRs.Handle.OutputShape | core-sys/src/lib.rs:62-71 | the slice built from the C getter's pointer and size is exactly the stored dims |
| CoreSysRs.Handle.InputShapes | core-sys/src/lib.rs:56-60 | exactly `input_count` entries, entry `i` being `input_shape(i)` |
| CoreSysRs.Handle.OutputShapes | core-sys/src/lib.rs:73-77 | exactly `output_count` entries, entry `i` being `output_shape(i)` |
| CoreSysRs.Handle.InputData | core-sys/src/lib.rs:115-121 | the slot's data pointer with the product of its shape as the length |
| CoreSysRs.Handle.OutputData | core-sys/src/lib.rs:132-138 | the slot's data pointer with the product of its shape as the length |
| CoreSysRs.Handle.InputDataAll | core-sys/src/lib.rs:123-130 | one slice per input, slice `i` being `input_data(i)` |
| CoreSysRs.Handle.OutputDataAll | core-sys/src/lib.rs:140-144 | one slice per output, slice `i` being `output_data(i)` |
| CoreSysRs.Handle.SetInputShape | core-sys/src/lib.rs:79-88 | the status is the C call's outcome converted; on `Err` the engine is unchanged and the slot holds the message; on `Ok` the re-read input shape is inserted at `index`, the re-read output shapes go in front, that input and every output are unbound, and the runtime tensors are those re-read |
| CoreSysRs.Handle.SetInputShapes | core-sys/src/lib.rs:90-95 | the calls run in slot order until one fails; `Ok` exactly when all succeed, else the failing call's status and message; the engine ends in `AfterBatch` of the completed calls: their re-read shapes in front of the old list, those inputs and every output unbound, the runtime tensors of the last call, and nothing changed when no call completed |
| CoreSysRs.Handle.SetOutputShape | core-sys/src/lib.rs:97-106 | always `Err` with the refusal message |
| CoreSysRs.Handle.SetOutputShapes | core-sys/src/lib.rs:108-113 | `Ok` only for an empty batch; otherwise the first call's refusal |
| CoreSysRs.Handle.SetInputData | core-sys/src/lib.rs:146-154 | always `Ok`; the slot is bound to the slice and its contents are copied |
| CoreSysRs.Handle.SetInputDataAll | core-sys/src/lib.rs:156-160 | always `Ok`; input `i` is bound to buffer `i` and its tensor holds that buffer's contents, for every given buffer; later inputs, the output bindings and the output tensors are unchanged |
| CoreSysRs.Handle.SetOutputData | core-sys/src/lib.rs:162-170 | always `Ok`; the slot is bound to the slice |
| CoreSysRs.Handle.SetOutputDataAll | core-sys/src/lib.rs:172-176 | always `Ok`; output `i` is bound to buffer `i` for every given buffer; later outputs, the inputs and every tensor are unchanged |
| CoreSysRs.Handle.Run | core-sys/src/lib.rs:178-180 | `Ok` exactly when `Invoke` succeeds; then the results are copied to the buffers bound before the call and become the output tensors; on `Err` nothing is copied, the engine is unchanged and the slot holds the message; no shape or binding ever changes |
| CoreSysRs.Handle.Drop | core-sys/src/lib.rs:27-33 | dropping never panics, because destroy always reports `Ok` |
| CoreSysRs.AdoptedBatchReadsBack | core-sys/src/lib.rs:90-95 | in a batch the interpreter adopts as requested, each completed slot's re-read shape is the requested one, for dims up to `INT32_MAX` |
| CoreSysRs.AfterBatchReadsBack | core-sys/src/lib.rs:90-95 | after a batch, each completed slot reads back the shape its call re-read, and the old entries follow |
| CoreSysRs.AfterBatchStep | core-sys/src/lib.rs:90-95 | one more completed `set_input_shape(i, ...)` takes the engine from the state after `i` calls to the state after `i + 1` |
| OrtSysError.Error.constructor | ort-sys/src/Error.cpp:10-13 | a default `Error` holds no message |
| OrtSysError.Error.WithMessage | ort-sys/src/Error.cpp:15-18 | owns the given message |
| OrtSysError.Error.MoveFrom | ort-sys/src/Error.cpp:20-23 | the new object holds the source's message and the source is left empty |
| OrtSysError.Error.MoveAssign | ort-sys/src/Error.cpp:25-39 | moving onto itself changes and frees nothing; otherwise the old message is freed, the source's is taken, and the source is emptied |
| OrtSysError.Error.Destroy | ort-sys/src/Error.cpp:41-47 | frees exactly the message held, if any |
| OrtSysError.Error.GetMessage | ort-sys/src/Error.cpp:49-52 | the message the object owns |
| OrtSysError.MessageReadsBack | ort-sys/src/Error.cpp:49-52 | `get_message` returns the message given to the constructor |
| OrtSysError.MoveConstructionHandsOver | ort-sys/src/Error.cpp:20-23 | after a move construction the new object reads the message and the source holds none |
| OrtSysError.MoveAssignmentReleasesTarget | ort-sys/src/Error.cpp:25-39 | move-assigning frees the target's old message and keeps the moved one; a self-move frees nothing |
| OrtSysResult.OkResult | ort-sys/src/Result.cpp:4-7 | code `Ok` (0), the value, and an empty error |
| OrtSysResult.ErrResult | ort-sys/src/Result.cpp:10-13 | code `Error` (-1), the error, and a value-initialised value |
| OrtSysEngine.Handle.Empty | ort-sys/include/OrtInferenceEngine.hpp:31 | the private default handle owns no adapter |
| OrtSysEngine.Handle.MoveFrom | ort-sys/src/OrtInferenceEngine.cpp:47-50 | the new handle owns the source's adapter and the source is left null |
| OrtSysEngine.Handle.MoveAssign | ort-sys/src/OrtInferenceEngine.cpp:52-66 | moving onto itself changes and frees nothing; otherwise the old adapter is freed, the source's is taken, and the source is nulled |
| OrtSysEngine.Handle.Destroy | ort-sys/src/OrtInferenceEngine.cpp:68-74 | frees exactly the adapter held, if any |
| OrtSysEngine.Create | ort-sys/src/OrtInferenceEngine.cpp:30-40 | `Ok` with a handle owning a fresh adapter when loading succeeds; otherwise `Error`, an empty handle and the exception text |
| OrtSysEngine.EmptyModelScenario | ort-sys/src/OrtInferenceEngine.test.cpp:19-24 | zero model bytes give code -1, the message "No graph was found in the protobuf." and an empty handle |
| OrtSysEngine.MovedAdapterReleasedOnce | ort-sys/src/OrtInferenceEngine.cpp:47-74 | a created adapter moved to a second handle is freed by that handle's destructor and not by the moved-from one |

## Left out

- Model parsing, shape inference, kernels and the ONNX Runtime session are foreign code. Their answers are
  parameters (`Build`, `ResizeReply`, `InvokeReply`, `SessionInfo`, `SessionReply`, a run failure message).
- Floating-point arithmetic is not modelled. The layer only copies floats, so they are `real` values that are
  never computed.
- The per-thread last-error slot (`thread_local`) is one explicit `LastError` object per thread. Concurrency
  itself is not modelled.
- TfLiteEngine.Engine.SetInputShape: when `AllocateTensors` fails after a successful `ResizeInputTensor`, the real
  interpreter keeps the resized tensor. The model leaves the runtime tensors unchanged. The adapter's own state
  is unchanged in both.
- TfliteLegacy.Engine.SetInputShape: the same simplification applies to the runtime tensors on an allocation
  failure.
- TfLiteRuntime.WriteFront: `std::copy_n` into a caller buffer smaller than the tensor writes out of bounds. The
  model writes nothing in that case, and the operations require buffers that are large enough.
- TensorInfo.ElementCountCases: states the product only when it fits an `int`. `element_count *= v` is computed in
  `int64_t`, whose overflow is undefined behaviour and is not modelled. The narrowing to `int` is modelled.
- OrtEngine.OverrideCount: the override product is an `int64_t` and is modelled with unbounded integers, so signed
  overflow (undefined behaviour) is not modelled.
- CoreSysRs.SliceLength: Rust's `product` over `usize` panics or wraps on overflow. The model uses the exact
  product.
- OrtEngine.Engine.Run: what ONNX Runtime writes into the output buffers is not modelled. The operation states the
  tensors it hands over and whether the run throws.
- The ONNX Runtime adapter's `get_input_info` / `get_output_info` are the stored `const` fields
  `OrtEngine.Engine.inputInfo` / `outputInfo` rather than separate operations.
- The ort-sys `get_input_shape` / `get_output_shape` / `get_*_count` are declared in
  `ort-sys/include/OrtInferenceEngine.hpp`, but no definition of them exists in the source, so they are not part
  of this model.
- CoreSysRs.FromCode: the last-error message is carried over verbatim. The conversion with `to_string_lossy`
  (core-sys/src/lib.rs:9-10), which replaces invalid UTF-8 with U+FFFD, is not modelled, because messages are
  `string`s rather than bytes.
- OrtSysResult.ErrResult: the `Error` object a `Result` carries is represented by the message it owns. Its
  ownership moves are modelled separately by `OrtSysError.Error`.
- The Rust `new` constructors of the per-runtime crates (tflite/src/lib.rs and the others) only call `create`
  and wrap the handle. `CoreSys.CreateInferenceEngine` and `CoreSysRs.Handle.constructor` cover them.
- The C surface over the earlier TensorFlow Lite adapter (the class `tflite-sys/src/lib.cpp` names) is not
  modelled separately. That file's wrappers are those of `core-sys/src/lib.cpp`, and it calls data accessors the
  earlier class lacks.
- Build scripts, bindgen output, the Python model generators and the test drivers are not part of this model.
