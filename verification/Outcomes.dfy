/** Result types shared by the model. */
module Outcomes {

  datatype Option<+T> = None | Some(value: T)

  /** The only error the program tells apart from the others is the invalid-credential one. */
  datatype Error = InvalidCredential | Other

  /** How a Go call ends: with a value, with an error, or with a run-time panic. */
  datatype Outcome<+T> = Ok(value: T) | Err(error: Error) | Panic {
    predicate IsFailure() {
      !Ok?
    }

    function PropagateFailure<U>(): Outcome<U>
      requires IsFailure()
    {
      if Panic? then Panic else Err(error)
    }

    function Extract(): T
      requires Ok?
    {
      value
    }
  }

  /** What one GET and the decoding of its body yield. */
  datatype Fetched<+T> = Failed(error: Error) | Got(body: T) {
    function ToOutcome(): Outcome<T> {
      match this
      case Failed(e) => Err(e)
      case Got(b) => Ok(b)
    }
  }

  /** An exclude pattern, when configured, is a predicate on URLs. */
  type Exclude = Option<string -> bool>

  predicate Kept(exclude: Exclude, url: string) {
    exclude.None? || !exclude.value(url)
  }
}
