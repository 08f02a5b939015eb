/** The plans that the certification tests ship with, seen as launches and stops
    (sev_verify/cert_tests). */
module ShippedPlans {
  import opened Models
  import opened VmProfiles
  import opened Executor
  import Brackets
  import Platforms
  import TcbVersions

  const OK := ExitCode(0)
  const REPORT := "snpguest report report.bin request.bin --random"

  function Call(name: string, severity: Severity, handler: string): Step {
    Step(name, severity, Callable(handler), OK)
  }

  function Test(name: string, handler: string): Step {
    Call(name, Required, handler)
  }

  function Stop(name: string): Step {
    Step(name, Info, VmStop, OK)
  }

  /** A launch that the platform should refuse, for this reason. */
  function Rejected(name: string, guestId: string, reason: string): Step {
    Step(name, Required, VmLaunch(guestId), StdoutContains(reason))
  }

  // ── The plans ───────────────────────────────────────────────────

  /** attestation_test.py; the artifact directory in the commands is left out. */
  const ATTESTATION := [
    Call("Calculate measurement", Setup, "calculate_measurement"),
    Step("Launch SEV-SNP guest", Setup, VmLaunch("regular-guest-attestation-test-vm"), OK),
    Step("Get attestation report with snpguest", Required, Guest(REPORT), OK),
    Step("Pull report from guest", Required, GuestPull("report.bin", "report.bin"), OK),
    Step("Pull request file from guest", Required, GuestPull("request.bin", "request.bin"), OK),
    Step("Fetch certificate chain from kds", Setup, Host("snpguest fetch ca pem"), OK),
    Step("Fetch VCEK from kds", Setup, Host("snpguest fetch vcek pem"), OK),
    Step("Verify certificate chain", Required, Host("snpguest verify certs"), OK),
    Step("Verify report signature and TCB values", Required, Host("snpguest verify attestation"), OK),
    Test("Verify Request data and Measurement", "verify_report_fields"),
    Stop("Stop VM") ]

  /** id_block_test.py: a valid block, a bad measurement, the case that needs SMT, and
      an impossible ABI version. */
  const ID_BLOCK_VALID := [
    Call("Calculate measurement", Setup, "calculate_measurement"),
    Call("Generate ID block", Setup, "generate_id_block"),
    Step("Launch with valid ID block", Setup, VmLaunch("positive-valid-id-block-vm"), OK),
    Step("Get attestation report", Required, Guest(REPORT), OK),
    Step("Pull attestation report", Required, GuestPull("report.bin", "report.bin"), OK),
    Stop("Stop VM"),
    Test("Verify ID block fields in report", "verify_id_block_fields") ]

  const ID_BLOCK_MEASUREMENT := [
    Test("Set bad measurement in ID block", "set_bad_measurement"),
    Rejected("Launch with bad measurement (expect rejection)", "negative-bad-measurement-vm", "Bad measurement"),
    Stop("Stop VM (after bad measurement)") ]

  const ID_BLOCK_SMT := [
    Test("Set incompatible policy (SMT)", "set_incompatible_policy"),
    Rejected("Launch with SMT-incompatible policy (expect rejection)", "negative-smt-policy-vm", "SNP_LAUNCH_START"),
    Stop("Stop VM (after SMT policy)") ]

  const ID_BLOCK_NO_SMT := [Call("SMT policy case not applicable", Info, "smt_case_not_applicable")]

  const ID_BLOCK_ABI := [
    Test("Set impossible ABI version", "set_bad_abi_version"),
    Rejected("Launch with impossible ABI version (expect rejection)", "negative-abi-version-vm",
             "Policy is not allowed"),
    Stop("Stop VM (after ABI version)") ]

  function IdBlockSteps(smtActive: bool): seq<Step> {
    ID_BLOCK_VALID + ID_BLOCK_MEASUREMENT + (if smtActive then ID_BLOCK_SMT else ID_BLOCK_NO_SMT) + ID_BLOCK_ABI
  }

  /** key_derivation_test.py: the first guest with its tests, then a second one. */
  const FIRST_CVM := [
    Call("Calculate measurement", Setup, "calculate_measurement"),
    Call("Generate ID block", Setup, "generate_id_block"),
    Step("Launch SEV-SNP guest", Setup, VmLaunch(""), OK),
    Step("Get attestation report", Setup, Guest(REPORT), OK),
    Step("Pull attestation report", Setup, GuestPull("report.bin", "report.bin"), OK),
    Test("Parse attestation report", "parse_report"),
    Call("Detect running VMPL", Setup, "detect_vmpl"),
    Test("Test determinism", "test_determinism"),
    Test("Test VMPL isolation", "test_vmpl_isolation"),
    Test("Test root key difference", "test_root_key_difference"),
    Test("Test SVN bound enforcement and sensitivity", "test_svn"),
    Test("Test TCB bound enforcement and sensitivity", "test_tcb"),
    Test("Test GFS sensitivity", "test_gfs"),
    Test("Test GFS field mixing", "test_gfs_field_mixing"),
    Test("Save reference key from CVM 1", "save_cross_cvm_key"),
    Stop("Stop CVM 1") ]

  const SECOND_CVM := [
    Step("Launch CVM 2", Setup, VmLaunch(""), OK),
    Test("Verify key matches across CVMs", "verify_cross_cvm_key"),
    Stop("Stop CVM 2") ]

  datatype Shipped = Attestation | IdBlock(smtActive: bool) | KeyDerivation | TcbConfig(lowered: TcbVersions.TcbVersion)

  function StepsOf(s: Shipped): seq<Step> {
    match s
    case Attestation => ATTESTATION
    case IdBlock(smtActive) => IdBlockSteps(smtActive)
    case KeyDerivation => FIRST_CVM + SECOND_CVM
    case TcbConfig(lowered) => Platforms.TcbSteps(lowered)
  }

  // ── Bracketing ──────────────────────────────────────────────────

  /** Where guests may run, when a list is appended to one that leaves none. */
  lemma {:induction false} RunsInPart(before: seq<Step>, part: seq<Step>, n: nat)
    requires n <= |part| && !Brackets.MayRun(before, |before|)
    ensures Brackets.MayRun(before + part, |before| + n) == Brackets.MayRun(part, n)
  {
    if n > 0 {
      RunsInPart(before, part, n - 1);
    } else {
      SamePrefix(before, before + part, |before|);
    }
  }

  lemma {:induction false} SamePrefix(a: seq<Step>, b: seq<Step>, n: nat)
    requires a <= b && n <= |a|
    ensures Brackets.MayRun(a, n) == Brackets.MayRun(b, n)
  {
    if n > 0 {
      SamePrefix(a, b, n - 1);
    }
  }

  /** Closed plans, which leave no guest running, can follow one another. */
  predicate Closed(steps: seq<Step>) {
    Brackets.Bracketed(steps) && !Brackets.MayRun(steps, |steps|)
  }

  lemma ClosedConcatenate(a: seq<Step>, b: seq<Step>)
    requires Closed(a) && Closed(b)
    ensures Closed(a + b)
  {
    RunsInPart(a, b, |b|);
    forall n | 0 <= n < |a + b| && (a + b)[n].action.VmLaunch? ensures !Brackets.MayRun(a + b, n) {
      if n < |a| {
        SamePrefix(a, a + b, n);
      } else {
        RunsInPart(a, b, n - |a|);
      }
    }
  }

  /** No guest runs before the first step that could start one. */
  lemma {:induction false} QuietStart(steps: seq<Step>, k: nat)
    requires k <= |steps|
    requires forall i | 0 <= i < k :: steps[i].action.Host? || steps[i].action.Callable?
    ensures forall i | 0 <= i <= k :: !Brackets.MayRun(steps, i)
  {
    if k > 0 {
      QuietStart(steps, k - 1);
    }
  }

  predicate EndsInStopAndCall(steps: seq<Step>) {
    && |steps| > 1 && steps[|steps| - 2].action.VmStop?
    && steps[|steps| - 1].action.Callable?
  }

  /** Launch at step k, no other launch, and at the end a stop, or a stop and quiet
      steps after it. */
  lemma OneGuestIsClosed(steps: seq<Step>, k: nat)
    requires k < |steps| && (steps[|steps| - 1].action.VmStop? || EndsInStopAndCall(steps))
    requires forall i | 0 <= i < k :: steps[i].action.Host? || steps[i].action.Callable?
    requires forall i | k < i < |steps| :: !steps[i].action.VmLaunch?
    ensures Closed(steps)
  {
    QuietStart(steps, k);
  }

  lemma KeyDerivationIsClosed()
    ensures Closed(FIRST_CVM + SECOND_CVM)
  {
    OneGuestIsClosed(FIRST_CVM, 2);
    OneGuestIsClosed(SECOND_CVM, 0);
    ClosedConcatenate(FIRST_CVM, SECOND_CVM);
  }

  lemma TcbConfigIsBracketed(c: Platforms.Commands)
    ensures Brackets.Bracketed(Platforms.StepsWith(c))
  {
    QuietStart(Platforms.StepsWith(c), 3);
  }

  lemma IdBlockIsClosed(smtActive: bool)
    ensures Closed(IdBlockSteps(smtActive))
  {
    OneGuestIsClosed(ID_BLOCK_VALID, 2);
    OneGuestIsClosed(ID_BLOCK_MEASUREMENT, 1);
    ClosedConcatenate(ID_BLOCK_VALID, ID_BLOCK_MEASUREMENT);
    SmtCaseIsClosed(smtActive);
    OneGuestIsClosed(ID_BLOCK_ABI, 1);
    var smt := if smtActive then ID_BLOCK_SMT else ID_BLOCK_NO_SMT;
    ClosedConcatenate(ID_BLOCK_VALID + ID_BLOCK_MEASUREMENT, smt);
    ClosedConcatenate(ID_BLOCK_VALID + ID_BLOCK_MEASUREMENT + smt, ID_BLOCK_ABI);
  }

  lemma SmtCaseIsClosed(smtActive: bool)
    ensures Closed(if smtActive then ID_BLOCK_SMT else ID_BLOCK_NO_SMT)
  {
    OneGuestIsClosed(ID_BLOCK_SMT, 1);
    QuietStart(ID_BLOCK_NO_SMT, 1);
  }

  lemma ShippedPlansAreBracketed(s: Shipped)
    ensures Brackets.Bracketed(StepsOf(s))
  {
    hide Platforms.StepsWith, Brackets.MayRun;
    match s
    case Attestation => OneGuestIsClosed(ATTESTATION, 1);
    case IdBlock(smtActive) => IdBlockIsClosed(smtActive);
    case KeyDerivation => KeyDerivationIsClosed();
    case TcbConfig(lowered) => TcbConfigIsBracketed(Platforms.CommandsFor(lowered));
  }

  /** If stopping never raises OSError, no run of a shipped plan reaches a launch while
      a guest is held, whatever became of the launches and rejections before. */
  lemma ShippedPlansNeverCollide<W(!new)>(s: Shipped, world: World<W>, cfg: Config, declared: VMProfile, w: W)
    requires Brackets.NeverRefusesStop(world)
    ensures forall n: nat :: !Brackets.CollidesAt(world, cfg, Plan(StepsOf(s), declared, true), w, n)
  {
    ShippedPlansAreBracketed(s);
    Brackets.BracketedPlansNeverCollide(world, cfg, Plan(StepsOf(s), declared, true), w);
  }

  /** Every step counts but the stops, and the note that the SMT case does not apply. */
  predicate StopsAloneDoNotCount(steps: seq<Step>) {
    forall n | 0 <= n < |steps| ::
      steps[n].severity == Info <==> steps[n].action.VmStop? || steps[n].action == Callable("smt_case_not_applicable")
  }

  lemma CountsJoin(a: seq<Step>, b: seq<Step>)
    requires StopsAloneDoNotCount(a) && StopsAloneDoNotCount(b)
    ensures StopsAloneDoNotCount(a + b)
  {
  }

  lemma IdBlockCounts(smtActive: bool)
    ensures StopsAloneDoNotCount(IdBlockSteps(smtActive))
  {
    hide StopsAloneDoNotCount;
    PartsCount();
    var smt := if smtActive then ID_BLOCK_SMT else ID_BLOCK_NO_SMT;
    CountsJoin(ID_BLOCK_VALID, ID_BLOCK_MEASUREMENT);
    CountsJoin(ID_BLOCK_VALID + ID_BLOCK_MEASUREMENT, smt);
    CountsJoin(ID_BLOCK_VALID + ID_BLOCK_MEASUREMENT + smt, ID_BLOCK_ABI);
  }

  lemma PartsCount()
    ensures StopsAloneDoNotCount(ID_BLOCK_VALID) && StopsAloneDoNotCount(ID_BLOCK_MEASUREMENT)
    ensures StopsAloneDoNotCount(ID_BLOCK_SMT) && StopsAloneDoNotCount(ID_BLOCK_NO_SMT)
    ensures StopsAloneDoNotCount(ID_BLOCK_ABI)
  {
    assert "smt_case_not_applicable"[1] == 'm';
  }

  lemma KeyDerivationCounts()
    ensures StopsAloneDoNotCount(FIRST_CVM + SECOND_CVM)
  {
    hide StopsAloneDoNotCount;
    FirstCounts();
    SecondCounts();
    CountsJoin(FIRST_CVM, SECOND_CVM);
  }

  lemma FirstCounts()
    ensures StopsAloneDoNotCount(FIRST_CVM)
  {
  }

  lemma SecondCounts()
    ensures StopsAloneDoNotCount(SECOND_CVM)
  {
  }

  lemma AttestationCounts()
    ensures StopsAloneDoNotCount(ATTESTATION)
  {
  }

  /** So it is in these three plans; in the TCB plan the second reset does not count
      either. */
  lemma AllButStopsCount(s: Shipped)
    ensures !s.TcbConfig? ==> StopsAloneDoNotCount(StepsOf(s))
    ensures s.TcbConfig? ==> forall n | 0 <= n < 17 :: StepsOf(s)[n].severity == Info <==> n == 13 || n == 14
  {
    hide StopsAloneDoNotCount, Platforms.StepsWith;
    match s
    case Attestation => AttestationCounts();
    case IdBlock(smtActive) => IdBlockCounts(smtActive);
    case KeyDerivation => KeyDerivationCounts();
    case TcbConfig(lowered) => Platforms.StepsAct(Platforms.CommandsFor(lowered));
  }
}
