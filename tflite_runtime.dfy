/** What the TensorFlow Lite adapters see of the interpreter they wrap. The
    interpreter itself (model parsing, shape inference, kernels) is foreign
    code: each call into it is modelled by the answer it gives, which the
    adapter operations receive as a parameter. */
module TfLiteRuntime {
  import opened Common
  import opened Arith
  import opened TfLiteShape

  /** One interpreter tensor as the adapter sees it: its `dims`, the address
      of its float storage (`typed_input_tensor<float>` and friends) and
      its contents, `bytes / sizeof(float)` floats. */
  datatype Tensor = Tensor(dims: seq<int>, storage: Ptr, data: seq<real>)

  /** How the four steps of the adapter constructor went: building the
      model from the bytes, setting one thread, building the interpreter
      and allocating its tensors; then the input and output tensors in
      interpreter order. */
  datatype Build = Build(
    modelLoaded: bool,
    threadsSet: bool,
    interpreterBuilt: bool,
    tensorsAllocated: bool,
    inputs: seq<Tensor>,
    outputs: seq<Tensor>)

  /** The outcome of the constructor's steps: the first failing step throws
      its own message. The later steps never run after a failure. */
  function BuildOutcome(b: Build): (o: Outcome)
    ensures o.Completed? <==> b.modelLoaded && b.threadsSet && b.interpreterBuilt && b.tensorsAllocated
    ensures !b.modelLoaded ==> o == Thrown("failed to load model")
  {
    if !b.modelLoaded then Thrown("failed to load model")
    else if !b.threadsSet then Thrown("failed to set the number of CPU threads")
    else if !b.interpreterBuilt then Thrown("failed to build the interpreter")
    else if !b.tensorsAllocated then Thrown("failed to allocate tensor buffers")
    else Completed
  }

  /** The interpreter's answer to `ResizeInputTensor` followed by
      `AllocateTensors`: the resize is refused, the allocation fails, or
      both succeed and every tensor is re-read. */
  datatype ResizeReply =
    | ResizeRejected
    | AllocationRejected
    | Resized(inputs: seq<Tensor>, outputs: seq<Tensor>)

  /** The interpreter's answer to `Invoke`: failure, or success with the
      new contents of every output tensor. */
  datatype InvokeReply = InvokeRejected | Invoked(results: seq<seq<real>>)

  /** How `run` ends in both adapters: it throws exactly when `Invoke`
      fails. */
  function RunOutcome(invoke: InvokeReply): (o: Outcome)
    ensures o.Completed? <==> invoke.Invoked?
    ensures o.Thrown? ==> o.message == "failed to invoke the interpreter"
  {
    if invoke.Invoked? then Completed else Thrown("failed to invoke the interpreter")
  }

  /** The dims handed to `ResizeInputTensor`: the `size_t` shape copied
      into a `std::vector<int>`, which narrows each value to 32 bits. */
  function Request(shape: seq<nat>): (dims: seq<int>)
    ensures |dims| == |shape|
    ensures forall i :: 0 <= i < |shape| ==> dims[i] == Wrap32(shape[i])
    ensures forall i :: 0 <= i < |shape| && shape[i] <= INT32_MAX ==> dims[i] == shape[i]
  {
    if |shape| == 0 then [] else Request(shape[..|shape| - 1]) + [Wrap32(shape[|shape| - 1])]
  }

  /** The `Shape`s the adapter builds from a list of tensors, in order. */
  function ShapesOf(tensors: seq<Tensor>): (shapes: seq<Shape>)
    ensures |shapes| == |tensors|
    ensures forall i :: 0 <= i < |tensors| ==> shapes[i] == ShapeOf(tensors[i].dims)
  {
    if |tensors| == 0 then [] else ShapesOf(tensors[..|tensors| - 1]) + [ShapeOf(tensors[|tensors| - 1].dims)]
  }

  /** The shapes of one more tensor of a list. */
  lemma ShapesOfStep(tensors: seq<Tensor>, i: nat)
    requires i < |tensors|
    ensures ShapesOf(tensors[..i + 1]) == ShapesOf(tensors[..i]) + [ShapeOf(tensors[i].dims)]
  {
    assert tensors[..i + 1][..i] == tensors[..i];
  }

  /** The output tensors after a successful `Invoke`: same dims and
      storage, new contents. */
  function WithResults(tensors: seq<Tensor>, results: seq<seq<real>>): (r: seq<Tensor>)
    requires |results| == |tensors|
    ensures |r| == |tensors|
    ensures forall i :: 0 <= i < |tensors| ==> r[i] == tensors[i].(data := results[i])
  {
    seq(|tensors|, i requires 0 <= i < |tensors| => tensors[i].(data := results[i]))
  }

  /** Every shape built from tensors satisfies the `Shape` invariant. */
  lemma ValidShapes(tensors: seq<Tensor>)
    ensures forall s :: s in ShapesOf(tensors) ==> s.Valid()
  {
    forall s | s in ShapesOf(tensors) ensures s.Valid() {
      var i :| 0 <= i < |tensors| && ShapesOf(tensors)[i] == s;
      ShapeOfCount(tensors[i].dims);
    }
  }

  /** `v.emplace(v.begin() + index, x)`: `x` lands at `index`, the entries
      from `index` on move up by one. */
  function Insert<T>(s: seq<T>, index: nat, x: T): (r: seq<T>)
    requires index <= |s|
    ensures |r| == |s| + 1
    ensures r[index] == x
    ensures forall j :: 0 <= j < index ==> r[j] == s[j]
    ensures forall j :: index < j <= |s| ==> r[j] == s[j - 1]
  {
    s[..index] + [x] + s[index..]
  }

  /** Inserting right after a prefix puts the new entry between the two
      parts. */
  lemma InsertAfterPrefix<T>(a: seq<T>, b: seq<T>, x: T)
    ensures Insert(a + b, |a|, x) == a + [x] + b
  {
    assert (a + b)[..|a|] == a;
    assert (a + b)[|a|..] == b;
  }

  /** Inserting a valid shape into valid shapes keeps them valid. */
  lemma ValidInsert(shapes: seq<Shape>, index: nat, s: Shape)
    requires index <= |shapes|
    requires forall t :: t in shapes ==> t.Valid()
    requires s.Valid()
    ensures forall t :: t in Insert(shapes, index, s) ==> t.Valid()
  {
    forall t | t in Insert(shapes, index, s) ensures t.Valid() {
      var j :| 0 <= j < |shapes| + 1 && Insert(shapes, index, s)[j] == t;
      if j < index {
        assert t == shapes[j];
      } else if j > index {
        assert t == shapes[j - 1];
      }
    }
  }

  /** `std::copy_n(values, n, a)`: the first `|values|` floats of the buffer
      at `a` are overwritten, the rest kept. The caller promises the buffer
      is large enough; a smaller one is written out of bounds by the
      source, which the model does not follow. */
  function WriteFront(memory: Memory, a: Address, values: seq<real>): Memory
  {
    if a in memory && |values| <= |memory[a]| then memory[a := values + memory[a][|values|..]] else memory
  }

  /** The memory once outputs 0..k-1 have been written through their
      pointers in slot order: the copy loop of the later adapter's `run`,
      and the interpreter writing through the storage pointers that the
      earlier adapter lets the caller install. A later slot bound to the
      same address overwrites an earlier one; a null slot writes nothing
      here. */
  function CopyOut(memory: Memory, bound: seq<Ptr>, results: seq<seq<real>>, k: nat): Memory
    requires k <= |bound| && k <= |results|
  {
    if k == 0 then memory
    else
      var m := CopyOut(memory, bound, results, k - 1);
      if bound[k - 1].Some? then WriteFront(m, bound[k - 1].value, results[k - 1]) else m
  }

  /** The copy loop never adds or drops a buffer, nor changes its length. */
  lemma {:induction false} CopyOutKeepsBuffers(memory: Memory, bound: seq<Ptr>, results: seq<seq<real>>, k: nat)
    requires k <= |bound| && k <= |results|
    ensures CopyOut(memory, bound, results, k).Keys == memory.Keys
    ensures forall a :: a in memory ==> |CopyOut(memory, bound, results, k)[a]| == |memory[a]|
  {
    if k > 0 {
      CopyOutKeepsBuffers(memory, bound, results, k - 1);
    }
  }

  /** A buffer that no output slot is bound to is left untouched. */
  lemma {:induction false} CopyOutUntouched(memory: Memory, bound: seq<Ptr>, results: seq<seq<real>>, k: nat, a: Address)
    requires k <= |bound| && k <= |results|
    requires a in memory
    requires forall i :: 0 <= i < k ==> bound[i] != Some(a)
    ensures a in CopyOut(memory, bound, results, k)
    ensures CopyOut(memory, bound, results, k)[a] == memory[a]
  {
    if k > 0 {
      CopyOutUntouched(memory, bound, results, k - 1, a);
    }
  }

  /** A bound output's results end up at the front of its buffer, unless a later slot is bound to the same buffer and
      overwrites them. */
  lemma {:induction false} CopyOutDelivers(memory: Memory, bound: seq<Ptr>, results: seq<seq<real>>, k: nat, i: nat)
    requires k <= |bound| && k <= |results| && i < k
    requires bound[i].Some? && bound[i].value in memory && |results[i]| <= |memory[bound[i].value]|
    requires forall j :: i < j < k ==> bound[j] != bound[i]
    ensures bound[i].value in CopyOut(memory, bound, results, k)
    ensures |results[i]| <= |CopyOut(memory, bound, results, k)[bound[i].value]|
    ensures CopyOut(memory, bound, results, k)[bound[i].value][..|results[i]|] == results[i]
  {
    var a := bound[i].value;
    CopyOutKeepsBuffers(memory, bound, results, k);
    CopyOutKeepsBuffers(memory, bound, results, k - 1);
    if k - 1 > i {
      CopyOutDelivers(memory, bound, results, k - 1, i);
    } else {
      var m := CopyOut(memory, bound, results, k - 1);
      assert (results[i] + m[a][|results[i]|..])[..|results[i]|] == results[i];
    }
  }

  /** When the interpreter adopts the requested dims as they are, the
      `Shape` re-read from the tensor holds exactly the shape the caller
      asked for, provided every dimension fits an `int`. */
  lemma {:induction false} EchoedShapeReadsBack(shape: seq<nat>)
    requires forall i :: 0 <= i < |shape| ==> shape[i] <= INT32_MAX
    ensures ShapeOf(Request(shape)).values == shape
  {
    var dims := Request(shape);
    assert forall i :: 0 <= i < |dims| ==> 0 <= dims[i];
    ClampNonNegative(dims);
    assert dims == shape;
  }

  /** A dimension past `INT32_MAX` does not survive the trip: 2^32 narrows
      to 0 and 2^31 to a negative `int`, and both read back as 0. */
  lemma WideDimensionReadsBackZero()
    ensures ShapeOf(Request([TWO_32])).values == [0]
    ensures ShapeOf(Request([INT32_MAX + 1])).values == [0]
  {
    assert Request([TWO_32])[0] == 0;
    assert Request([INT32_MAX + 1])[0] == INT32_MIN;
  }
}
