/** Values shared by the discovery loop and the batch test runner: the
    error-carrying wrappers, verdicts, run outcomes and discovery rows. */
module Ci {

  datatype Option<+T> = None | Some(value: T)

  /** The crate-wide `R<T>`: a value or an error. */
  datatype Result<+T> = Ok(value: T) | Err(error: Error)

  /** Index of the first error in `s` at or after `from`, or `|s|` when
      there is none. */
  function FirstErr<T>(s: seq<Result<T>>, from: nat): (k: nat)
    requires from <= |s|
    ensures from <= k <= |s|
    ensures forall i :: from <= i < k ==> s[i].Ok?
    ensures k < |s| ==> s[k].Err?
    decreases |s| - from
  {
    if from == |s| || s[from].Err? then from
    else FirstErr(s, from + 1)
  }

  /** Errors that travel through the discovery and test code.
      `Cancel` is the user-initiated abort, `Disconnected` stands for a
      closed order channel, `Failed` for every operational failure
      (build, spawn, file reads, a failing generator or brute force). */
  datatype Error = Cancel | Disconnected | Failed(message: string)

  datatype Verdict = Accepted | WrongAnswer | RuntimeError | TimeLimitExceeded {
    predicate IsSuccess() {
      this == Accepted
    }
  }

  /** The outcome of one execution of a program: its verdict and its
      standard output. */
  datatype Outcome = Outcome(verdict: Verdict, stdout: string) {
    predicate IsSuccess() {
      verdict.IsSuccess()
    }
  }

  /** One discovery iteration: its number within the session, the
      solution's outcome, the input's fitness and the generated input. */
  datatype Row = Row(number: nat, solution: Outcome, fitness: int, input: string)
}
