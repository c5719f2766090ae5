/** Values shared by every part of the client: optional values, the errors
    the backend reports, and how an asynchronous store action settles. */
module Common {

  /** `null`/`undefined` versus a present value. */
  datatype Option<+T> = None | Some(value: T)

  /** An error object from the backend. `message` is `None` when the object
      carries no message at all. */
  datatype Error = Error(message: Option<string>)

  /** How an `async` action settles: it returns a value or (re)throws. */
  datatype Completion<+T> = Returned(value: T) | Threw(error: Error)

  /** The rendering of JavaScript's `a || b` on strings: the empty string
      and a missing value are both falsy. */
  function OrElse(a: Option<string>, fallback: string): (r: string)
    ensures a.Some? && a.value != "" ==> r == a.value
    ensures (a.None? || a.value == "") ==> r == fallback
  {
    if a.Some? && a.value != "" then a.value else fallback
  }
}
