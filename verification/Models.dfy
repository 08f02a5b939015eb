/** The data a test run is made of: steps, their expectations and their results
    (sev_verify/models.py). */
module Models {

  datatype Option<+T> = None | Some(value: T)

  /** What a failing step does to the test: stop it, fail it, or nothing. */
  datatype Severity = Setup | Required | Info

  /** A step's success criterion, `exit_code:<int>` or `stdout_contains:<text>`. */
  datatype Expected = ExitCode(code: int) | StdoutContains(text: string)

  /** The six step kinds, each with the fields that are meaningful for it. */
  datatype Action =
    | VmLaunch(guestId: string)
    | VmStop
    | Host(command: string)
    | Guest(guestCommand: string)
    | GuestPull(guestSrc: string, hostDest: string)
    | Callable(handler: string)

  datatype Step = Step(name: string, severity: Severity, action: Action, expected: Expected)

  datatype Outcome = Pass | Fail | Error | Skip

  datatype StepResult = StepResult(
    step: Step, result: Outcome,
    exitCode: Option<int>, stdout: Option<string>, stderr: Option<string>)

  predicate Failing(o: Outcome) {
    o == Fail || o == Error
  }

  /** Does `needle` occur in `hay`, as Python's `needle in hay`? */
  predicate Contains(hay: string, needle: string) {
    exists i | 0 <= i <= |hay| :: OccursAt(hay, needle, i)
  }

  predicate OccursAt(hay: string, needle: string, i: nat)
    requires i <= |hay|
  {
    needle <= hay[i..]
  }
}
