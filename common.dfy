/** Values shared by every part of the model: optional values, document ids,
    timestamps, HTTP responses, and the few JavaScript coercions the source
    relies on. */
module Common {

  datatype Option<+T> = None | Some(value: T) {
    function GetOr(default: T): T {
      match this
      case Some(v) => v
      case None => default
    }
  }

  /** A document id assigned by the store (MongoDB's ObjectId). */
  type Id = nat

  /** A point in time, in milliseconds since the epoch. */
  type Millis = int

  /** What a route handler answers: a success status with a body, an error
      status with a message, or nothing at all when the handler's promise is
      rejected without a catch. */
  datatype Response<+T> =
    | Ok(code: nat, value: T)
    | Err(code: nat, message: string)
    | NoReply

  /** JavaScript truthiness of a string that may be undefined: `undefined` and
      the empty string are falsy, every other string is truthy. */
  predicate Truthy(s: Option<string>) {
    s.Some? && s.value != ""
  }

  /** `s || fallback` for a string that may be undefined. */
  function OrElse(s: Option<string>, fallback: string): (r: string)
    ensures Truthy(s) ==> r == s.value
    ensures !Truthy(s) ==> r == fallback
  {
    if Truthy(s) then s.value else fallback
  }

  /** `String(v)` for a string that may be undefined, as `setItem` and
      `FormData.append` coerce their value argument. */
  function JsString(s: Option<string>): (r: string)
    ensures s.Some? ==> r == s.value
    ensures s.None? ==> r == "undefined"
  {
    if s.Some? then s.value else "undefined"
  }
}
