/** Optional values and fallible results, the model's stand-ins for JavaScript's
    `undefined`/`null` and for a thrown exception. */
module Wrappers {

  datatype Option<+T> = None | Some(value: T)

  datatype Result<+T, +E> = Success(value: T) | Failure(error: E)

  /** JavaScript truthiness of an optional string: `undefined`, `null` and `""` are falsy. */
  predicate Truthy(s: Option<string>) {
    s.Some? && s.value != ""
  }

  /** `a || b` on optional strings. */
  function OrElse(a: Option<string>, b: Option<string>): Option<string> {
    if Truthy(a) then a else b
  }

  /** `a || fallback` where the fallback is a literal string. */
  function OrDefault(a: Option<string>, fallback: string): string {
    if Truthy(a) then a.value else fallback
  }
}
