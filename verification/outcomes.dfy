/**
 Go's ways for a call to end, as values: a result, an `error`, or a panic.

 - `Error` models the two error shapes the code builds: a leaf error carrying
   only text (`errors.New`, `fmt.Errorf` without `%w`, `ctx.Err()`), and an
   error wrapped with `fmt.Errorf("<context>: %w", cause)`.
 - `Result<T>` is the outcome of a Go call returning `(T, error)`, extended
   with `Panic` for a run-time panic that unwinds out of the call.
 */
module Outcomes {

  datatype Option<+T> = None | Some(value: T)

  datatype Error =
    | Fault(text: string)
    | Wrapped(context: string, cause: Error)

  /** The text `err.Error()` returns. */
  function ErrorText(e: Error): string
  {
    match e
    case Fault(t) => t
    case Wrapped(c, inner) => c + ": " + ErrorText(inner)
  }

  /**
   `errors.Is(e, target)`: target is somewhere on e's unwrap chain. Errors are
   compared by value here, while Go compares `*errorString` and `*wrapError`
   values by address, so two distinct Go errors with equal text are not
   `errors.Is`-equal although they are `Is`-equal here. Every use in this model
   threads one error value through, where the two notions agree.
   */
  predicate Is(e: Error, target: Error)
  {
    e == target || (e.Wrapped? && Is(e.cause, target))
  }

  /** Text prefixed by the `recover` handlers of the model bridge. */
  const RuntimeErrorPrefix: string := "runtime error: "

  /** Panic value of indexing element 0 of an empty slice. */
  const IndexZeroOfEmpty: string := "runtime error: index out of range [0] with length 0"

  /** Panic value of indexing element len-1 of an empty slice. */
  const IndexMinusOne: string := "runtime error: index out of range [-1]"

  datatype Result<+T> = Ok(value: T) | Err(error: Error) | Panic(reason: string) {

    predicate IsFailure() {
      !Ok?
    }

    function PropagateFailure<U>(): (r: Result<U>)
      requires !Ok?
      ensures r.Err? <==> Err?
    {
      if Err? then Err(error) else Panic(reason)
    }

    function Extract(): T
      requires Ok?
    {
      value
    }
  }

  /** `errors.Is` sees through any number of wrappers: an error found on a wrapped error's chain is found on the wrapper's. */
  lemma {:induction false} IsTransitive(a: Error, b: Error, c: Error)
    requires Is(a, b) && Is(b, c)
    ensures Is(a, c)
  {
    if a != b {
      IsTransitive(a.cause, b, c);
    }
  }
}
