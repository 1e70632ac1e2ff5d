/**
 * The two shapes of `Result<_, String>` the checks of the source return:
 * a check that passes or gives its reason, and a value or the reason why
 * there is none.
 */
module Checks {

  /** `Result<(), String>`: accepted, or the reason why not. */
  datatype Verdict = Accept | Reject(reason: string)

  /** `Result<T, String>`: a value, or the reason why there is none. */
  datatype Outcome<+T> = Pass(value: T) | Fail(reason: string)
}
