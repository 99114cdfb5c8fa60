/** Failure-carrying values shared by every module: the source throws `Error`s with a message,
    the model returns them. */
module Wrappers {

  datatype Option<+T> = None | Some(value: T)

  /** The value of a call that may throw: `Err` carries the thrown error's message. */
  datatype Result<+T> = Ok(value: T) | Err(message: string) {
    predicate IsFailure() { Err? }

    function PropagateFailure<U>(): Result<U>
      requires Err?
    {
      Err(message)
    }

    function Extract(): T
      requires Ok?
    {
      value
    }
  }

  /** The value of a call that returns nothing but may throw. */
  datatype Outcome = Pass | Fail(message: string)

  /** The decimal text of a natural number, as a template literal renders it. */
  function NatToString(n: nat): (s: string)
    ensures |s| > 0
    ensures forall i :: 0 <= i < |s| ==> '0' <= s[i] <= '9'
  {
    if n < 10 then ["0123456789"[n]] else NatToString(n / 10) + ["0123456789"[n % 10]]
  }
}
