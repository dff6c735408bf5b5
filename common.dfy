/** Values shared by every layer: optional values, the outcome of a call that
    may throw, raw pointers and the caller's memory, and the status codes of
    the C-callable surface. */
module Common {

  /** A value that may be absent (a nullable pointer, an optional message). */
  datatype Option<+T> = None | Some(value: T)

  /** How a native call ended: it returned normally, or it threw an exception
      whose `what()` text is `message`. */
  datatype Outcome = Completed | Thrown(message: string)

  /** An address in the caller's memory. */
  type Address = nat

  /** A raw `float *`: null (`None`) or an address. */
  type Ptr = Option<Address>

  /** The caller's float buffers, by address. Float values are only ever
      copied by the binding layer, never computed, so `real` stands for
      `float`. */
  type Memory = map<Address, seq<real>>

  /** `InferenceEngineResultCode` of the C surface and `ResultCode` of the
      C++ result struct: two enumerations with the same two members. */
  datatype ResultCode = Ok | Error

  /** The numeric value of a status code: `Ok = 0`, `Error = -1`. */
  function CodeValue(code: ResultCode): (v: int)
    ensures v == 0 <==> code == Ok
    ensures v == -1 <==> code == Error
  {
    match code
    case Ok => 0
    case Error => -1
  }

  /** The status a wrapper reports for a call that ended with `o`. */
  function CodeOf(o: Outcome): (code: ResultCode)
    ensures code == Ok <==> o.Completed?
  {
    if o.Completed? then Ok else Error
  }
}
