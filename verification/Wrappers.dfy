/** Optional values, and values that may be an error instead. */
module Wrappers {

  datatype Option<+T> = None | Some(value: T)

  datatype Fallible<+T, +E> = Ok(value: T) | Err(error: E) {
    predicate IsFailure() { Err? }

    function PropagateFailure<U>(): Fallible<U, E>
      requires Err?
    {
      Err(error)
    }

    function Extract(): T
      requires Ok?
    {
      value
    }
  }

  /** Puts `head` in front of a successful result; an error stays as it is. */
  function Prepend<T, E>(head: seq<T>, r: Fallible<seq<T>, E>): Fallible<seq<T>, E> {
    match r
    case Ok(tail) => Ok(head + tail)
    case Err(e) => Err(e)
  }

  lemma PrependTwice<T, E>(a: seq<T>, b: seq<T>, r: Fallible<seq<T>, E>)
    ensures Prepend(a, Prepend(b, r)) == Prepend(a + b, r)
  {
    if r.Ok? {
      assert a + (b + r.value) == (a + b) + r.value;
    }
  }
}
