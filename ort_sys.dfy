/** ort-sys `Error`: a move-only object that owns at most one message
    (its `impl`). Moving hands the message over and leaves the source
    empty, so every message is released exactly once. */
module OrtSysError {
  import C = Common

  class Error {
    /** The owned message; `None` is a null `impl`. */
    var message: C.Option<string>

    /** The default constructor: no message. */
    constructor ()
      ensures message == C.None
    {
      message := C.None;
    }

    /** `Error(const char *)`: owns a copy of `text`. */
    constructor WithMessage(text: string)
      ensures message == C.Some(text)
    {
      message := C.Some(text);
    }

    /** The move constructor: starts empty, then move-assigns from
        `other`. */
    constructor MoveFrom(other: Error)
      modifies other
      ensures message == old(other.message)
      ensures other.message == C.None
    {
      message := C.None;
      new;
      var released := MoveAssign(other);
    }

    /** Move assignment. Moving an object onto itself changes nothing;
        otherwise this object releases its own message, takes `other`'s,
        and `other` is left empty. `released` is what was freed. */
    method MoveAssign(other: Error) returns (released: C.Option<string>)
      modifies this, other
      ensures other == this ==> message == old(message) && released == C.None
      ensures other != this ==>
        && message == old(other.message)
        && other.message == C.None
        && released == old(message)
    {
      released := C.None;
      if other != this {
        released := message;
        message := other.message;
        other.message := C.None;
      }
    }

    /** The destructor: frees the message if there is one. */
    method Destroy() returns (released: C.Option<string>)
      modifies this
      ensures released == old(message)
      ensures message == C.None
    {
      released := message;
      message := C.None;
    }

    /** `get_message`: reads through `impl`, so there must be a message. */
    function GetMessage(): (text: string)
      reads this
      requires message.Some?
      ensures message == C.Some(text)
    {
      message.value
    }
  }

  /** A message given to the constructor is the one `get_message` reads. */
  method MessageReadsBack(text: string) returns (read: string)
    ensures read == text
  {
    var e := new Error.WithMessage(text);
    read := e.GetMessage();
  }

  /** Move-constructing hands the message over: the new object reads it
      and the source no longer holds one. */
  method MoveConstructionHandsOver(text: string) returns (read: string, sourceEmpty: bool)
    ensures read == text
    ensures sourceEmpty
  {
    var source := new Error.WithMessage(text);
    var target := new Error.MoveFrom(source);
    read := target.GetMessage();
    sourceEmpty := source.message.None?;
  }

  /** Move-assigning onto an object that holds a message frees that
      message and keeps the moved one; moving an object onto itself
      frees nothing and keeps its message. */
  method MoveAssignmentReleasesTarget(kept: string, moved: string)
    returns (released: C.Option<string>, read: string, selfReleased: C.Option<string>, selfRead: string)
    ensures released == C.Some(kept) && read == moved
    ensures selfReleased == C.None && selfRead == moved
  {
    var target := new Error.WithMessage(kept);
    var source := new Error.WithMessage(moved);
    released := target.MoveAssign(source);
    read := target.GetMessage();
    selfReleased := target.MoveAssign(target);
    selfRead := target.GetMessage();
  }
}

/** ort-sys `Result<T>`: a status code, a value and an error, built by
    `ok` and `err`. The error object is modelled by the message it owns. */
module OrtSysResult {
  import opened Common

  datatype Result<T> = Result(code: ResultCode, value: T, error: Option<string>)

  /** `ok(value)`: code `Ok`, the value, and an empty error. */
  function OkResult<T>(value: T): (r: Result<T>)
    ensures r.code == Ok && CodeValue(r.code) == 0
    ensures r.value == value && r.error == None
  {
    Result(Ok, value, None)
  }

  /** `err(error)`: code `Error`, the error, and a value-initialised
      value, passed as `empty`. */
  function ErrResult<T>(error: Option<string>, empty: T): (r: Result<T>)
    ensures r.code == Error && CodeValue(r.code) == -1
    ensures r.value == empty && r.error == error
  {
    Result(Error, empty, error)
  }
}

/** ort-sys `OrtInferenceEngine`: a move-only handle owning at most one
    adapter (its `impl`). `create` turns a throwing constructor into a
    `Result`; moving hands the adapter over and nulls the source, and the
    destructor releases it only when present. */
module OrtSysEngine {
  import opened Common
  import OrtEngine
  import opened OrtSysResult

  /** How loading the model ends: the session's declared slots, or the
      `what()` of the exception thrown while loading. */
  datatype SessionReply = Loaded(session: OrtEngine.SessionInfo) | Rejected(what: string)

  /** ONNX Runtime's text for a zero-byte model. */
  const NoGraph := "No graph was found in the protobuf."

  class Handle {
    /** The owned adapter; `null` is a null `impl`. */
    var impl: OrtEngine.Engine?

    /** The private default constructor: no adapter. */
    constructor Empty()
      ensures impl == null
    {
      impl := null;
    }

    /** The move constructor: starts empty, then move-assigns from
        `other`. */
    constructor MoveFrom(other: Handle)
      modifies other
      ensures impl == old(other.impl)
      ensures other.impl == null
    {
      impl := null;
      new;
      var released := MoveAssign(other);
    }

    /** Move assignment. Moving a handle onto itself changes nothing;
        otherwise this handle releases its own adapter, takes `other`'s,
        and `other` is left empty. `released` is what was freed. */
    method MoveAssign(other: Handle) returns (released: OrtEngine.Engine?)
      modifies this, other
      ensures other == this ==> impl == old(impl) && released == null
      ensures other != this ==>
        && impl == old(other.impl)
        && other.impl == null
        && released == old(impl)
    {
      released := null;
      if other != this {
        released := impl;
        impl := other.impl;
        other.impl := null;
      }
    }

    /** The destructor: frees the adapter if there is one. */
    method Destroy() returns (released: OrtEngine.Engine?)
      modifies this
      ensures released == old(impl)
      ensures impl == null
    {
      released := impl;
      impl := null;
    }
  }

  /** `create`: code `Ok` with a handle owning a new adapter when loading
      succeeds; otherwise code `Error`, an empty handle and the
      exception's text. */
  method Create(reply: SessionReply) returns (r: Result<Handle>)
    ensures fresh(r.value)
    ensures reply.Loaded? ==>
      && r.code == Ok && r.error == None
      && r.value.impl != null && fresh(r.value.impl)
      && r.value.impl.inputCount == |reply.session.inputs|
      && r.value.impl.outputCount == |reply.session.outputs|
    ensures reply.Rejected? ==>
      && r.code == Error && r.error == Some(reply.what)
      && r.value.impl == null
  {
    if reply.Rejected? {
      var empty := new Handle.Empty();
      return ErrResult(Some(reply.what), empty);
    }
    var engine := new OrtEngine.Engine(reply.session);
    var handle := new Handle.Empty();
    handle.impl := engine;
    r := OkResult(handle);
  }

  /** Zero model bytes: loading fails, so `create` reports code -1 and
      ONNX Runtime's message, and hands back an empty handle. */
  method EmptyModelScenario() returns (code: int, message: Option<string>, empty: bool)
    ensures code == -1
    ensures message == Some(NoGraph)
    ensures empty
  {
    var r := Create(Rejected(NoGraph));
    code := CodeValue(r.code);
    message := r.error;
    empty := r.value.impl == null;
  }

  /** A created adapter moved into a second handle is released once: by
      the destructor of the handle that received it, never by the
      moved-from one. */
  method MovedAdapterReleasedOnce(session: OrtEngine.SessionInfo)
    returns (fromSource: OrtEngine.Engine?, fromTarget: OrtEngine.Engine?)
    ensures fromSource == null
    ensures fromTarget != null
  {
    var r := Create(Loaded(session));
    var source := r.value;
    var target := new Handle.MoveFrom(source);
    fromSource := source.Destroy();
    fromTarget := target.Destroy();
  }
}
