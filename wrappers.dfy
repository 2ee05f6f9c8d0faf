/** Failure-compatible result types used for the source's exceptions. */
module Wrappers {

  datatype Option<+T> = None | Some(value: T) {
    predicate IsFailure() { None? }

    function PropagateFailure<U>(): Option<U>
      requires None?
    {
      None
    }

    function Extract(): T
      requires Some?
    {
      value
    }
  }

  /** A computation that either yields a value or throws with a message. */
  datatype Result<+T> = Ok(value: T) | Err(error: string) {
    predicate IsFailure() { Err? }

    function PropagateFailure<U>(): Result<U>
      requires Err?
    {
      Err(error)
    }

    function Extract(): T
      requires Ok?
    {
      value
    }
  }

  /**
   * The result of reading what is left of an input, preceded by what was
   * read already: the invariant of the loops that append to a sequence and
   * stop at the first error.
   */
  function After<T>(done: seq<T>, rest: Result<seq<T>>): Result<seq<T>>
  {
    if rest.Ok? then Ok(done + rest.value) else rest
  }

  lemma AfterNothing<T>(r: Result<seq<T>>)
    ensures After([], r) == r
  {
    if r.Ok? {
      assert [] + r.value == r.value;
    }
  }
}
