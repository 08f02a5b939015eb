/** How one step's raw outcome becomes its result (sev_verify/runner.py). */
module Runner {
  import opened Models
  import opened VmProfiles

  /** A host command ended, could not be run or timed out (both reported), or
      raised something the runner does not catch. */
  datatype HostOutcome = HostExited(code: int, out: string, err: string) | HostFailed(error: string) | HostEscapes

  /** A guest command ended, the vsock channel failed, or something else was raised. */
  datatype GuestOutcome = GuestExited(code: int, out: string, err: string) | GuestVsock(error: string) | GuestEscapes

  datatype PullOutcome = Pulled | PullVsock(error: string) | PullEscapes

  /** A handler returned a StepHandlerResult, ended in one of the ways the runner
      reports (missing, not callable, timed out, raised, wrong return type), or
      raised past `except Exception`. */
  datatype CallVerdict = Returned(code: int, out: string, err: string) | Broken(error: string) | CallEscapes

  /** Fetching the guest journal, which only debug mode does. */
  datatype JournalOutcome = JournalRead | JournalVsock | JournalEscapes

  predicate Expects(e: Expected, code: int, out: string) {
    match e
    case ExitCode(c) => code == c
    case StdoutContains(text) => Contains(out, text)
  }

  function Judged(passed: bool): Outcome {
    if passed then Pass else Fail
  }

  function ErrorResult(step: Step, message: string): StepResult {
    StepResult(step, Error, None, None, Some(message))
  }

  /** In these functions `None` means that an exception leaves the runner. */
  function HostResult(step: Step, o: HostOutcome): Option<StepResult> {
    match o
    case HostExited(code, out, err) =>
      Some(StepResult(step, Judged(Expects(step.expected, code, out)), Some(code), Some(out), Some(err)))
    case HostFailed(message) => Some(ErrorResult(step, message))
    case HostEscapes => None
  }

  /** A refused launch is still a launch outcome with exit code 1, so a step may
      expect it; unexpected, it is an error rather than a failure. */
  function LaunchResult(step: Step, o: LaunchOutcome): Option<StepResult> {
    match o
    case Started(ok, message) =>
      var code := if ok then 0 else 1;
      Some(StepResult(step, Judged(Expects(step.expected, code, message)), Some(code),
                      if ok then Some(message) else None, if ok then None else Some(message)))
    case Refused(message) =>
      Some(StepResult(step, if Expects(step.expected, 1, message) then Pass else Error,
                      Some(1), None, Some(message)))
    case LaunchEscapes(_) => None
  }

  const STOP_MESSAGE := "Guest VM stopped"

  function StopResult(step: Step, o: StopOutcome): Option<StepResult> {
    match o
    case Stopped =>
      var passed := Expects(step.expected, 0, STOP_MESSAGE);
      Some(StepResult(step, Judged(passed), Some(if passed then 0 else 1), Some(STOP_MESSAGE), None))
    case StopRefused(message) => Some(ErrorResult(step, message))
    case StopEscapes => None
  }

  function GuestResult(step: Step, o: GuestOutcome): Option<StepResult> {
    match o
    case GuestExited(code, out, err) =>
      Some(StepResult(step, Judged(Expects(step.expected, code, out)), Some(code), Some(out), Some(err)))
    case GuestVsock(message) => Some(ErrorResult(step, message))
    case GuestEscapes => None
  }

  /** A pull is judged on exit code 0 and an empty output. */
  function PullResult(step: Step, o: PullOutcome): Option<StepResult> {
    match o
    case Pulled =>
      Some(StepResult(step, Judged(Expects(step.expected, 0, "")), Some(0), Some("Pulled"), None))
    case PullVsock(message) => Some(ErrorResult(step, message))
    case PullEscapes => None
  }

  function NonEmpty(s: string): Option<string> {
    if s == "" then None else Some(s)
  }

  function CallResult(step: Step, v: CallVerdict): Option<StepResult> {
    match v
    case Returned(code, out, err) =>
      Some(StepResult(step, Judged(Expects(step.expected, code, out)), Some(code), NonEmpty(out), NonEmpty(err)))
    case Broken(message) => Some(ErrorResult(step, message))
    case CallEscapes => None
  }

  /** The test module's profile merged with the command line. */
  function EffectiveProfile(declared: VMProfile, guestPath: string,
                            qemu: Option<string>, ovmf: Option<string>, debug: bool): VMProfile
  {
    var base := declared.(imagePath := guestPath);
    var base := if qemu.Some? then base.(qemuBinary := qemu.value) else base;
    var base := if ovmf.Some? then base.(ovmfPath := ovmf) else base;
    if debug then base.(debug := true) else base
  }
}
