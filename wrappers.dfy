/** Failure-compatible wrappers: C# null references become `Option`, thrown exceptions become `Result`. */
module Wrappers {

  datatype Option<+T> = None | Some(value: T)

  datatype Result<+T, +E> = Ok(value: T) | Err(error: E) {
    predicate IsFailure() {
      Err?
    }

    function PropagateFailure<U>(): Result<U, E>
      requires Err?
    {
      Err(error)
    }

    function Extract(): T
      requires Ok?
    {
      value
    }
  }

  /** Prefixes `done` to a successful list result; an error passes through unchanged. */
  function Chain<T, E>(done: seq<T>, rest: Result<seq<T>, E>): Result<seq<T>, E> {
    if rest.Ok? then Ok(done + rest.value) else rest
  }

  lemma ChainEmpty<T, E>(r: Result<seq<T>, E>)
    ensures Chain([], r) == r
  {
    if r.Ok? {
      assert [] + r.value == r.value;
    }
  }

  lemma ChainAssociative<T, E>(a: seq<T>, b: seq<T>, r: Result<seq<T>, E>)
    ensures Chain(a, Chain(b, r)) == Chain(a + b, r)
  {
    if r.Ok? {
      assert a + (b + r.value) == (a + b) + r.value;
    }
  }

  /** An operation that either completes or throws, with no value. */
  datatype Outcome<+E> = Pass | Fail(error: E)
}
