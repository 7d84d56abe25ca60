/** Failure-compatible result types shared by the codec and the connection engine. */
module Wrappers {

  datatype Option<+T> = None | Some(value: T)

  /** Why the process stops. Go's `panic` and an endless loop end every run, so no state survives them. */
  datatype CrashKind =
    | IllegalStreamState   // MustBeIn panics
    | SliceOutOfRange      // a slice expression with bounds out of order panics
    | EndlessLoop          // a loop whose guard can never become false

  datatype Outcome<+T> = Ok(value: T) | Crash(kind: CrashKind) {
    predicate IsFailure() { Crash? }

    function PropagateFailure<U>(): Outcome<U>
      requires Crash?
    {
      Crash(kind)
    }

    function Extract(): T
      requires Ok?
    {
      value
    }
  }
}
