/** Option and Result values, bytes, and the error objects the code throws. */
module Wrappers {

  datatype Option<+T> = None | Some(value: T)

  /** An element of a `Uint8Array`. */
  type Byte = x: int | 0 <= x < 256

  /** A settled promise: either its value or the error it was rejected with. */
  datatype Result<+T, +E> = Ok(value: T) | Err(error: E)

  /**
   * A JavaScript `Error` as the code inspects it: an optional HTTP-like
   * `status` (set by the provider's client library) and an optional `message`.
   */
  datatype Error = Error(status: Option<int>, message: Option<string>)

  /** `new Error(msg)` */
  function Raise(msg: string): Error
  {
    Error(None, Some(msg))
  }

  /** Taking one more element of a sequence appends that element. */
  lemma PrefixSnoc<T>(s: seq<T>, i: nat)
    requires i < |s|
    ensures s[..i + 1] == s[..i] + [s[i]]
  {
  }
}
