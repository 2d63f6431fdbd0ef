/** Outcomes of the backend's operations: a value, or the Python exception
    the operation raises (the exception's message is not modelled). */
module Wrappers {

  datatype Option<+T> = None | Some(value: T)

  /** The exception classes the modelled code raises or lets escape. */
  datatype Error =
    | ValueError
    | IndexError
    | KeyError
    | TypeError
    | AttributeError
    | NameError
    | ZeroDivisionError
    | HTTPError

  datatype Result<+T> = Ok(value: T) | Err(error: Error) {
    predicate IsFailure() { Err? }

    function PropagateFailure<U>(): Result<U>
      requires Err?
    {
      Err(error)
    }

    function Extract(): T
      requires Ok?
    {
      value
    }
  }

  /** Python's `s[i]` on a list: a negative index counts from the end, and an
      index outside `-len(s) .. len(s) - 1` raises IndexError. */
  function PyAt<T>(s: seq<T>, i: int): (r: Result<T>)
    ensures r.Ok? <==> -|s| <= i < |s|
  {
    if 0 <= i < |s| then Ok(s[i])
    else if -|s| <= i < 0 then Ok(s[|s| + i])
    else Err(IndexError)
  }

  /** The position `s[i]` designates, when it designates one. */
  function PyPos(len: nat, i: int): nat
    requires -(len as int) <= i < len
  {
    if i < 0 then len + i else i
  }

  lemma PyAtIsPosition<T>(s: seq<T>, i: int)
    requires -|s| <= i < |s|
    ensures PyAt(s, i) == Ok(s[PyPos(|s|, i)])
  {
  }
}
