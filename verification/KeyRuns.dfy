/** The bound tests as steps of the key derivation test: what a run of it means
    (sev_verify/cert_tests/c3_0/c3_0_0_1/key_derivation_test.py). */
module KeyRuns {
  import opened Models
  import opened VmProfiles
  import opened Runner
  import opened Executor
  import opened TcbVersions
  import Brackets
  import KeyDerivation
  import KeyTests
  import Reports = AttestationReports
  import ShippedPlans
  import Verdicts

  // ── The handlers ────────────────────────────────────────────────

  /** Reading `report.bin`. */
  datatype FileRead = Bytes(data: seq<byte>) | Missing | Unreadable

  /** What the two handlers read, and the answers to the requests that each of them would
      get if it were called now. */
  datatype KeyTools<!W> = KeyTools(
    host: W -> Option<Reports.Generation>,
    report: W -> FileRead,
    svnAnswers: (W, View) -> KeyDerivation.Firmware,
    tcbAnswers: (W, View) -> KeyDerivation.Firmware)

  /** `_load_report` for a handler with this exam: no report to examine is a failure. */
  function Ruling<W>(tools: KeyTools<W>, w: W, exam: Option<KeyDerivation.Exam>, f: KeyDerivation.Firmware)
    : KeyDerivation.Verdict
  {
    if tools.host(w).Some? && tools.report(w).Unreadable? then KeyDerivation.Raised
    else if exam.None? then KeyDerivation.Failed
    else KeyTests.ExamVerdict(f, exam.value)
  }

  /** The exam of the report that lies there; None where the host's generation is unknown,
      the report is missing or does not parse, or has no launch TCB. */
  function SvnExamOf<W>(tools: KeyTools<W>, w: W): Option<KeyDerivation.Exam> {
    if tools.host(w).None? || !tools.report(w).Bytes? then None
    else
      var report := Reports.Parse(tools.report(w).data, tools.host(w));
      if report.Err? then None else Some(KeyDerivation.SvnExam(report.value.guestSvn))
  }

  function TcbExamOf<W>(tools: KeyTools<W>, w: W): Option<KeyDerivation.Exam> {
    if tools.host(w).None? || !tools.report(w).Bytes? then None
    else
      var found := KeyTests.LaunchOf(tools.report(w).data, tools.host(w));
      if found.None? then None else Some(KeyDerivation.TcbExam(found.value.0, found.value.1))
  }

  function SvnVerdict<W>(tools: KeyTools<W>, w: W, v: View): KeyDerivation.Verdict {
    Ruling(tools, w, SvnExamOf(tools, w), tools.svnAnswers(w, v))
  }

  function TcbVerdict<W>(tools: KeyTools<W>, w: W, v: View): KeyDerivation.Verdict {
    Ruling(tools, w, TcbExamOf(tools, w), tools.tcbAnswers(w, v))
  }

  /** The two handlers from their first line on. */
  method HandleSvn<W>(tools: KeyTools<W>, w: W, v: View) returns (verdict: KeyDerivation.Verdict)
    ensures verdict == SvnVerdict(tools, w, v)
  {
    hide KeyTests.ExamVerdict, KeyDerivation.Judged, Reports.Parse;
    match tools.report(w)
    case Unreadable =>
      verdict := if tools.host(w).None? then KeyDerivation.Failed else KeyDerivation.Raised;
    case Missing =>
      verdict := KeyDerivation.Failed;
    case Bytes(data) =>
      var asked;
      verdict, asked := KeyTests.TestSvn(tools.svnAnswers(w, v), data, tools.host(w));
      if SvnExamOf(tools, w).Some? {
        KeyTests.JudgedIsVerdict(tools.svnAnswers(w, v), SvnExamOf(tools, w).value, verdict, asked);
      }
  }

  method HandleTcb<W>(tools: KeyTools<W>, w: W, v: View) returns (verdict: KeyDerivation.Verdict)
    ensures verdict == TcbVerdict(tools, w, v)
  {
    hide KeyTests.ExamVerdict, KeyDerivation.Judged, Reports.Parse, KeyDerivation.TcbExam;
    match tools.report(w)
    case Unreadable =>
      verdict := if tools.host(w).None? then KeyDerivation.Failed else KeyDerivation.Raised;
    case Missing =>
      verdict := KeyDerivation.Failed;
    case Bytes(data) =>
      var asked;
      verdict, asked := KeyTests.TestTcb(tools.tcbAnswers(w, v), data, tools.host(w));
      if TcbExamOf(tools, w).Some? {
        KeyTests.JudgedIsVerdict(tools.tcbAnswers(w, v), TcbExamOf(tools, w).value, verdict, asked);
      }
  }

  // ── Their steps ─────────────────────────────────────────────────

  function Reported(verdict: KeyDerivation.Verdict): CallVerdict {
    match verdict
    case Passed => Returned(0, "", "")
    case Failed => Returned(1, "", "")
    case Raised => Broken("handler raised")
  }

  /** Any world, with the two handlers in it. */
  function WithHandlers<W>(base: World<W>, tools: KeyTools<W>): World<W> {
    base.(call := (w: W, h: string, v: View) =>
      if h == "test_svn" then (base.call(w, h, v).0, CallOutcome(v.profile, Reported(SvnVerdict(tools, w, v))))
      else if h == "test_tcb" then (base.call(w, h, v).0, CallOutcome(v.profile, Reported(TcbVerdict(tools, w, v))))
      else base.call(w, h, v))
  }

  /** The exam could be set, and the answers satisfy it. */
  predicate Satisfied(exam: Option<KeyDerivation.Exam>, f: KeyDerivation.Firmware) {
    exam.Some? && KeyDerivation.Satisfies(f, exam.value)
  }

  predicate Broke(exam: Option<KeyDerivation.Exam>, f: KeyDerivation.Firmware) {
    exam.Some? && KeyDerivation.BreaksDown(f, exam.value)
  }

  lemma RulingMeans<W>(tools: KeyTools<W>, w: W, exam: Option<KeyDerivation.Exam>, f: KeyDerivation.Firmware)
    requires exam.Some? ==> tools.report(w).Bytes?
    ensures Ruling(tools, w, exam, f) == KeyDerivation.Passed <==> Satisfied(exam, f)
    ensures Ruling(tools, w, exam, f) == KeyDerivation.Raised
            <==> Broke(exam, f) || (tools.host(w).Some? && tools.report(w).Unreadable?)
  {
    hide KeyDerivation.BreaksDown, KeyDerivation.Bounded, KeyDerivation.Sensitive;
  }

  function KeyPlan(declared: VMProfile): Plan {
    Plan(ShippedPlans.FIRST_CVM + ShippedPlans.SECOND_CVM, declared, true)
  }

  lemma KeySteps(declared: VMProfile)
    ensures var s := KeyPlan(declared).steps;
      && |s| == 19
      && s[10] == ShippedPlans.Test("Test SVN bound enforcement and sensitivity", "test_svn")
      && s[11] == ShippedPlans.Test("Test TCB bound enforcement and sensitivity", "test_tcb")
  {
  }

  /** The result of a bound test in a run is that of the exam of the report that lay there
      at its turn, on the answers the guest gave in that turn. */
  predicate Examined<W>(tools: KeyTools<W>, w: W, exam: Option<KeyDerivation.Exam>, f: KeyDerivation.Firmware,
                        result: Outcome) {
    && (result == Pass <==> Satisfied(exam, f))
    && (result == Error <==> Broke(exam, f) || (tools.host(w).Some? && tools.report(w).Unreadable?))
    && result != Skip
  }

  lemma ResultIsExam<W>(tools: KeyTools<W>, w: W, exam: Option<KeyDerivation.Exam>, f: KeyDerivation.Firmware,
                        step: Step, sr: StepResult)
    requires exam.Some? ==> tools.report(w).Bytes?
    requires step.expected == ExitCode(0)
    requires CallResult(step, Reported(Ruling(tools, w, exam, f))) == Some(sr)
    ensures Examined(tools, w, exam, f, sr.result)
  {
    hide Ruling, Satisfied, Broke;
    RulingMeans(tools, w, exam, f);
  }

  lemma HandlersAnswer<W>(base: World<W>, tools: KeyTools<W>, w: W, v: View)
    ensures WithHandlers(base, tools).call(w, "test_svn", v).1.verdict == Reported(SvnVerdict(tools, w, v))
    ensures WithHandlers(base, tools).call(w, "test_tcb", v).1.verdict == Reported(TcbVerdict(tools, w, v))
  {
    hide SvnVerdict, TcbVerdict, Reported;
    assert "test_tcb"[5] != "test_svn"[5];
  }

  lemma SvnStepExamines<W>(base: World<W>, tools: KeyTools<W>, cfg: Config, declared: VMProfile, w: W)
    requires Verdicts.HadTurn(Execute(WithHandlers(base, tools), cfg, KeyPlan(declared), w).results, 10)
    ensures var world, plan := WithHandlers(base, tools), KeyPlan(declared);
      var r := After(world, cfg, plan, w, 10);
      Examined(tools, r.world, SvnExamOf(tools, r.world), tools.svnAnswers(r.world, Verdicts.ViewOf(cfg, r)),
               Execute(world, cfg, plan, w).results[10].result)
  {
    hide After, Execute, Ruling, Examined, Reported, KeyPlan, WithHandlers;
    var world, plan := WithHandlers(base, tools), KeyPlan(declared);
    KeySteps(declared);
    Verdicts.CallOfTurn(world, cfg, plan, w, 10);
    var r := After(world, cfg, plan, w, 10);
    HandlersAnswer(base, tools, r.world, Verdicts.ViewOf(cfg, r));
    ResultIsExam(tools, r.world, SvnExamOf(tools, r.world), tools.svnAnswers(r.world, Verdicts.ViewOf(cfg, r)),
                 plan.steps[10], Execute(world, cfg, plan, w).results[10]);
  }

  lemma TcbStepExamines<W>(base: World<W>, tools: KeyTools<W>, cfg: Config, declared: VMProfile, w: W)
    requires Verdicts.HadTurn(Execute(WithHandlers(base, tools), cfg, KeyPlan(declared), w).results, 11)
    ensures var world, plan := WithHandlers(base, tools), KeyPlan(declared);
      var r := After(world, cfg, plan, w, 11);
      Examined(tools, r.world, TcbExamOf(tools, r.world), tools.tcbAnswers(r.world, Verdicts.ViewOf(cfg, r)),
               Execute(world, cfg, plan, w).results[11].result)
  {
    hide After, Execute, Ruling, Examined, Reported, KeyPlan, WithHandlers;
    var world, plan := WithHandlers(base, tools), KeyPlan(declared);
    KeySteps(declared);
    Verdicts.CallOfTurn(world, cfg, plan, w, 11);
    var r := After(world, cfg, plan, w, 11);
    HandlersAnswer(base, tools, r.world, Verdicts.ViewOf(cfg, r));
    ResultIsExam(tools, r.world, TcbExamOf(tools, r.world), tools.tcbAnswers(r.world, Verdicts.ViewOf(cfg, r)),
                 plan.steps[11], Execute(world, cfg, plan, w).results[11]);
  }

  /** In any world: if the key derivation test passes, then the guest answered as both
      exams ask, each set by the report that lay there at its handler's turn. */
  lemma KeyPassMeansSatisfied<W>(base: World<W>, tools: KeyTools<W>, cfg: Config, declared: VMProfile, w: W)
    requires Execute(WithHandlers(base, tools), cfg, KeyPlan(declared), w).verdict == Completed(Pass)
    ensures var r := After(WithHandlers(base, tools), cfg, KeyPlan(declared), w, 10);
      Satisfied(SvnExamOf(tools, r.world), tools.svnAnswers(r.world, Verdicts.ViewOf(cfg, r)))
    ensures var r := After(WithHandlers(base, tools), cfg, KeyPlan(declared), w, 11);
      Satisfied(TcbExamOf(tools, r.world), tools.tcbAnswers(r.world, Verdicts.ViewOf(cfg, r)))
  {
    hide After, Execute, Satisfied, KeyPlan;
    KeySteps(declared);
    Verdicts.PassedStep(WithHandlers(base, tools), cfg, KeyPlan(declared), w, 10);
    Verdicts.PassedStep(WithHandlers(base, tools), cfg, KeyPlan(declared), w, 11);
    SvnStepExamines(base, tools, cfg, declared, w);
    TcbStepExamines(base, tools, cfg, declared, w);
  }

  // ── Who passes ──────────────────────────────────────────────────

  lemma StillSunny<W(!new)>(base: World<W>, tools: KeyTools<W>)
    requires Brackets.Sunny(base)
    requires forall w, v :: Satisfied(SvnExamOf(tools, w), tools.svnAnswers(w, v))
    requires forall w, v :: Satisfied(TcbExamOf(tools, w), tools.tcbAnswers(w, v))
    ensures Brackets.Sunny(WithHandlers(base, tools))
  {
    hide Ruling, Satisfied, SvnExamOf, TcbExamOf;
    forall w, v
      ensures Reported(SvnVerdict(tools, w, v)) == Reported(TcbVerdict(tools, w, v)) == Returned(0, "", "")
    {
      ExamsNeedBytes(tools, w);
      RulingMeans(tools, w, SvnExamOf(tools, w), tools.svnAnswers(w, v));
      RulingMeans(tools, w, TcbExamOf(tools, w), tools.tcbAnswers(w, v));
    }
  }

  lemma ExamsNeedBytes<W>(tools: KeyTools<W>, w: W)
    ensures SvnExamOf(tools, w).Some? || TcbExamOf(tools, w).Some? ==> tools.report(w).Bytes?
  {
  }

  lemma FirstIsOrdinary()
    ensures Brackets.Ordinary(ShippedPlans.FIRST_CVM) && Brackets.LenientStops(ShippedPlans.FIRST_CVM)
  {
  }

  lemma SecondIsOrdinary()
    ensures Brackets.Ordinary(ShippedPlans.SECOND_CVM) && Brackets.LenientStops(ShippedPlans.SECOND_CVM)
  {
  }

  lemma OrdinaryJoin(a: seq<Step>, b: seq<Step>)
    requires Brackets.Ordinary(a) && Brackets.LenientStops(a) && Brackets.Ordinary(b) && Brackets.LenientStops(b)
    ensures Brackets.Ordinary(a + b) && Brackets.LenientStops(a + b)
  {
  }

  lemma KeyPlanIsOrdinary(declared: VMProfile)
    ensures var steps := KeyPlan(declared).steps;
      Brackets.Ordinary(steps) && Brackets.LenientStops(steps) && Brackets.Bracketed(steps)
  {
    hide Brackets.Ordinary, Brackets.LenientStops, Brackets.Bracketed;
    ShippedPlans.KeyDerivationIsClosed();
    FirstIsOrdinary();
    SecondIsOrdinary();
    OrdinaryJoin(ShippedPlans.FIRST_CVM, ShippedPlans.SECOND_CVM);
  }

  /** Where everything else goes well, the whole test passes if the guest answers as the
      exams ask. */
  lemma SatisfyingGuestPasses<W(!new)>(base: World<W>, tools: KeyTools<W>, cfg: Config, declared: VMProfile, w: W)
    requires Brackets.Sunny(base)
    requires forall w, v :: Satisfied(SvnExamOf(tools, w), tools.svnAnswers(w, v))
    requires forall w, v :: Satisfied(TcbExamOf(tools, w), tools.tcbAnswers(w, v))
    ensures Execute(WithHandlers(base, tools), cfg, KeyPlan(declared), w).verdict == Completed(Pass)
  {
    hide Execute, Satisfied, SvnExamOf, TcbExamOf, WithHandlers, Brackets.Sunny, Brackets.Ordinary,
         Brackets.LenientStops, Brackets.Bracketed;
    StillSunny(base, tools);
    KeyPlanIsOrdinary(declared);
    Brackets.BracketedPlansPass(WithHandlers(base, tools), cfg, KeyPlan(declared), w);
  }

  /** A guest on this firmware, with this report. */
  function Guest<W>(host: Option<Reports.Generation>, data: seq<byte>, svn: KeyDerivation.Firmware,
                    tcb: KeyDerivation.Firmware): KeyTools<W>
  {
    KeyTools((w: W) => host, (w: W) => Bytes(data), (w: W, v: View) => svn, (w: W, v: View) => tcb)
  }

  /** So it does on conforming firmware, whatever report with a launch TCB it is that
      lies there. */
  lemma ConformingGuestPasses<W(!new)>(base: World<W>, cfg: Config, declared: VMProfile, w: W,
                                       host: Option<Reports.Generation>, data: seq<byte>,
                                       svn: KeyDerivation.Firmware, tcb: KeyDerivation.Firmware)
    requires Brackets.Sunny(base) && KeyTests.LaunchOf(data, host).Some?
    requires var (layout, launch) := KeyTests.LaunchOf(data, host).value; KeyTests.Conforms(tcb, layout, launch)
    requires var bound := Reports.Parse(data, host).value.guestSvn;
      forall n, v: nat :: if v <= bound then KeyDerivation.Gives(svn(n, v)) else svn(n, v).Refused?
    requires KeyTests.DerivesApart(svn)
    ensures Execute(WithHandlers(base, Guest(host, data, svn, tcb)), cfg, KeyPlan(declared), w).verdict
            == Completed(Pass)
  {
    hide Execute, Brackets.Sunny, KeyTests.Conforms, KeyTests.DerivesApart, KeyDerivation.Satisfies, WithHandlers;
    var (layout, launch) := KeyTests.LaunchOf(data, host).value;
    KeyTests.ConformingFirmwareSatisfies(tcb, layout, launch);
    KeyTests.ConformingSvnSatisfies(svn, Reports.Parse(data, host).value.guestSvn);
    SatisfyingGuestPasses(base, Guest(host, data, svn, tcb), cfg, declared, w);
  }
}
