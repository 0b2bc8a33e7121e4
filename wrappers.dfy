/** Small value types shared by every module of the model. */
module Wrappers {

  /** JavaScript's `undefined`/`null` versus a present value. */
  datatype Option<+T> = None | Some(value: T) {
    function GetOr(default: T): T {
      match this
      case Some(v) => v
      case None => default
    }
  }

  /** What `Number(x)` yields: a finite number, or something `Number.isFinite` rejects (NaN, ±Infinity). */
  datatype Num<+T> = Finite(value: T) | NonFinite

  /** A dynamically typed JavaScript value, as far as the modelled code looks at it.
      `Number` holds finite numbers only. */
  datatype JsValue = Undefined | Null | Bool(b: bool) | Number(n: real) | Str(s: string) | Object

  /** An HTTP reply: a JSON body sent with a success status, or an error status with its message. */
  datatype Response<+T> = Success(value: T) | Failure(status: int, message: string)

  /** JavaScript truthiness of an optional string: present and not empty. */
  predicate Truthy(s: Option<string>) {
    s.Some? && s.value != ""
  }
}
