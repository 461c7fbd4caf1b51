/** Optional values, and outcomes that carry the error code of the source. */
module Results {

  datatype Option<+T> = None | Some(value: T)

  datatype Result<+T> = Ok(value: T) | Err(code: string) {
    predicate IsFailure() { Err? }

    function PropagateFailure<U>(): Result<U>
      requires Err?
    {
      Err(code)
    }

    function Extract(): T
      requires Ok?
    {
      value
    }
  }

  datatype Outcome = Pass | Fail(code: string) {
    predicate IsFailure() { Fail? }

    function PropagateFailure<U>(): Result<U>
      requires Fail?
    {
      Err(code)
    }
  }

  /** Refuses with `code` unless `condition` holds. */
  function Need(condition: bool, code: string): Outcome {
    if condition then Pass else Fail(code)
  }

  /** The SDKs that share a protocol, where they differ. */
  datatype Sdk = Go | Rust | TypeScript

  lemma Regroup(a: string, b: string, c: string)
    ensures a + b + c == a + (b + c)
  {
  }
}
