/** A platform that judges ID blocks rightly, and on which the ID block test passes
    (sev_verify/cert_tests/c3_0/c3_0_0_1/id_block_test.py). */
module IdBlockRuns {
  import opened Models
  import opened VmProfiles
  import opened Runner
  import opened Executor
  import opened Rejections
  import ShippedPlans

  // ── The platform ────────────────────────────────────────────────

  const POLICY := 0xB_0000

  /** The guest's measurement. */
  function Real(): (m: string)
    ensures |m| == 96
  {
    seq(96, i => 'a')
  }

  /** Blocks that can be read: the block is the measurement it was made for. */
  function OpenTools(smtActive: bool): IdTools<()> {
    IdTools((w: ()) => Some(Real()), Some(POLICY), (w: ()) => smtActive,
            (w: (), i: Input) => Some((i.measurement, "auth")))
  }

  /** It refuses an ABI version of 255, a policy without SMT, and a block for another
      measurement. */
  function Judge(p: VMProfile): LaunchOutcome {
    if p.policy.None? || p.policy.value.PolicyText? then Refused("no ID block")
    else if AbiMajor(p.policy.value.bits) == 255 then Refused(ReasonOf(AbiMajor255))
    else if SmtBit(p.policy.value.bits) == 0 then Refused(ReasonOf(NoSmt))
    else if p.idBlock != Some(Real()) then Refused(ReasonOf(BadMeasurement))
    else Started(true, BOOT_MESSAGES[1])
  }

  const GENERATE := "generate_id_block"

  /** The other handlers pass; one of them makes the first block. */
  function OtherHandler(h: string, profile: Option<VMProfile>): CallOutcome {
    if h == GENERATE && profile.Some?
    then CallOutcome(Some(Regenerated(profile.value, Input(Real(), POLICY), (Real(), "auth"))), DONE)
    else CallOutcome(profile, DONE)
  }

  function JudgingWorld(): World<()> {
    World(
      (w: (), s: Step) => (w, HostExited(0, "", "")),
      (w: (), p: VMProfile) => (w, Judge(p)),
      (w: (), l: Launch) => (w, Stopped),
      (w: (), p: VMProfile, s: Step) => (w, GuestExited(0, "", "")),
      (w: (), p: VMProfile, s: Step) => (w, Pulled),
      (w: (), p: VMProfile) => (w, JournalRead),
      (w: (), h: string, v: View) => (w, OtherHandler(h, v.profile)),
      (w: ()) => "uuid")
  }

  function Site(smtActive: bool): World<()> {
    WithHandlers(JudgingWorld(), OpenTools(smtActive))
  }

  // ── What the context's profile carries ──────────────────────────

  datatype Block = Unmade | Valid | Bad(fault: Fault)

  function InputOf(b: Block): Input
    requires !b.Unmade?
  {
    if b.Valid? then Input(Real(), POLICY) else Faulty(b.fault, Input(Real(), POLICY))
  }

  predicate Holds(p: VMProfile, b: Block) {
    b.Unmade? || (p.idBlock == Some(InputOf(b).measurement) && p.policy == Some(PolicyBits(InputOf(b).policy)))
  }

  lemma JudgedByBlock(p: VMProfile, b: Block)
    requires Holds(p, b) && !b.Unmade?
    ensures Judge(p) == if b.Valid? then Started(true, BOOT_MESSAGES[1]) else Refused(ReasonOf(b.fault))
  {
    hide ReasonOf;
    assert SmtBit(POLICY) == 1 && AbiMajor(POLICY) == 0;
    OneFault(Input(Real(), POLICY));
    SmtParts(POLICY, 5, 1, 0);
    SmtParts(WithoutSmt(POLICY), 5, 0, 0);
    AbiParts(WithoutSmt(POLICY), 10, 0, 0);
  }

  /** What a handler does to it. */
  function Effect(h: string, b: Block): Block {
    match FaultOf(h)
    case Some(fault) => Bad(fault)
    case None => if h == GENERATE then Valid else b
  }

  // ── Where a run of the test stands ──────────────────────────────

  datatype Situation = Situation(running: bool, block: Block)

  /** What a step makes of a situation in which it goes as it should. */
  predicate Goes(smtActive: bool, step: Step, s: Situation, s': Situation) {
    match step.action
    case Callable(h) =>
      && step.expected == ExitCode(0) && s' == s.(block := Effect(h, s.block))
      && (FaultOf(h) == Some(NoSmt) ==> smtActive)
    case VmLaunch(_) =>
      && !s.running && !s.block.Unmade? && s' == s.(running := s.block.Valid?)
      && step.expected == if s.block.Valid? then ExitCode(0) else StdoutContains(ReasonOf(s.block.fault))
    case VmStop => step.severity == Info && s' == s.(running := false)
    case Host(_) => false
    case _ => step.expected == ExitCode(0) && s.running && s' == s
  }

  predicate Stands(r: Run<()>, n: nat, s: Situation) {
    && r.status.Running? && |r.results| == n && r.overall == Pass
    && r.profile.Some? && Holds(r.profile.value, s.block)
    && (r.launch.Some? <==> s.running) && (r.launch.Some? ==> r.launch.value.ok)
  }

  /** What `Stands` asks of a step's work. */
  predicate Performs(step: Step, p: (Run<()>, Option<StepResult>), s: Situation) {
    && p.1.Some? && (p.1.value.result == Pass || step.severity == Info)
    && p.0.profile.Some? && Holds(p.0.profile.value, s.block)
    && (p.0.launch.Some? <==> s.running) && (p.0.launch.Some? ==> p.0.launch.value.ok)
  }

  lemma CallGoes(smtActive: bool, cfg: Config, step: Step, r: Run<()>, n: nat, s: Situation, s': Situation)
    requires Stands(r, n, s) && Goes(smtActive, step, s, s') && step.action.Callable?
    ensures Performs(step, PerformCall(Site(smtActive), cfg, step, r), s')
  {
    hide FaultOf, Faulty, InjectFault, OtherHandler, Holds;
    HandlerGoes(smtActive, step.action.handler, r.profile.value, s.block);
    var view := View(r.profile, r.launch, r.results, cfg.allowHostChanges);
    assert r.world == ();
    assert Site(smtActive).call((), step.action.handler, view).1 == Called(smtActive, step.action.handler, r.profile);
  }

  /** What the world makes of a handler's call. */
  function Called(smtActive: bool, h: string, profile: Option<VMProfile>): CallOutcome {
    match FaultOf(h)
    case None => OtherHandler(h, profile)
    case Some(fault) => InjectFault(OpenTools(smtActive), (), profile, fault)
  }

  lemma HandlerGoes(smtActive: bool, h: string, p: VMProfile, b: Block)
    requires Holds(p, b) && (FaultOf(h) == Some(NoSmt) ==> smtActive)
    ensures var o := Called(smtActive, h, Some(p));
      o.verdict == DONE && o.profile.Some? && Holds(o.profile.value, Effect(h, b))
  {
    hide FaultOf, Faulty, Real;
    assert |Real()| == 96;
    if FaultOf(h).Some? {
      var i := Faulty(FaultOf(h).value, Input(Real(), POLICY));
      assert OpenTools(smtActive).measured(()) == Some(Real()) && OpenTools(smtActive).policy == Some(POLICY);
      assert OpenTools(smtActive).generate((), i) == Some((i.measurement, "auth"));
    }
  }

  lemma ContainsItself(text: string)
    ensures Contains(text, text)
  {
    assert OccursAt(text, text, 0);
  }

  lemma LaunchGoes(smtActive: bool, cfg: Config, step: Step, r: Run<()>, n: nat, s: Situation, s': Situation)
    requires Stands(r, n, s) && Goes(smtActive, step, s, s') && step.action.VmLaunch?
    ensures Performs(step, PerformLaunch(Site(smtActive), cfg, step, r), s')
  {
    hide Faulty, Judge, ReasonOf, Contains;
    var p := ProfileToLaunch(cfg, step.action.guestId, r.profile.value, "uuid");
    assert Holds(p, s.block);
    JudgedByBlock(p, s.block);
    if s.block.Bad? {
      ContainsItself(ReasonOf(s.block.fault));
    }
  }

  lemma OtherGoes(smtActive: bool, cfg: Config, step: Step, r: Run<()>, n: nat, s: Situation, s': Situation)
    requires Stands(r, n, s) && Goes(smtActive, step, s, s')
    requires step.action.VmStop? || step.action.Guest? || step.action.GuestPull?
    ensures Performs(step, Perform(Site(smtActive), cfg, step, r), s')
  {
    hide Faulty, Judge, FaultOf;
  }

  lemma TurnGoes(smtActive: bool, cfg: Config, steps: seq<Step>, r: Run<()>, s: Situation, s': Situation)
    requires |r.results| < |steps| && Stands(r, |r.results|, s) && Goes(smtActive, steps[|r.results|], s, s')
    ensures Stands(Advance(Site(smtActive), cfg, steps, r), |r.results| + 1, s')
  {
    hide PerformCall, PerformLaunch, PerformStop, PerformGuest, Goes, Holds;
    var step, n := steps[|r.results|], |r.results|;
    match step.action {
      case Callable(_) => CallGoes(smtActive, cfg, step, r, n, s, s');
      case VmLaunch(_) => LaunchGoes(smtActive, cfg, step, r, n, s, s');
      case Host(_) => NoHostGoes(smtActive, step, s, s');
      case _ => OtherGoes(smtActive, cfg, step, r, n, s, s');
    }
  }

  lemma NoHostGoes(smtActive: bool, step: Step, s: Situation, s': Situation)
    requires Goes(smtActive, step, s, s')
    ensures !step.action.Host?
  {
  }

  /** A list of situations, one before each step and one at the end. */
  predicate Flows(smtActive: bool, steps: seq<Step>, marks: seq<Situation>) {
    && |marks| == |steps| + 1
    && forall n | 0 <= n < |steps| :: Goes(smtActive, steps[n], marks[n], marks[n + 1])
  }

  lemma FlowsOn(smtActive: bool, a: seq<Step>, b: seq<Step>, before: seq<Situation>, after: seq<Situation>)
    requires Flows(smtActive, a, before) && Flows(smtActive, b, after) && before[|a|] == after[0]
    ensures Flows(smtActive, a + b, before + after[1..])
  {
    hide Goes;
    var steps, marks := a + b, before + after[1..];
    forall n | 0 <= n < |steps| ensures Goes(smtActive, steps[n], marks[n], marks[n + 1]) {
      if n >= |a| {
        assert steps[n] == b[n - |a|] && marks[n] == after[n - |a|] && marks[n + 1] == after[n - |a| + 1];
      }
    }
  }

  lemma {:induction false} RunGoes(smtActive: bool, cfg: Config, plan: Plan, marks: seq<Situation>, n: nat)
    requires Flows(smtActive, plan.steps, marks) && marks[0] == Situation(false, Unmade)
    requires plan.requiresVm && n <= |plan.steps|
    ensures Stands(After(Site(smtActive), cfg, plan, (), n), n, marks[n])
  {
    hide Advance, Goes;
    if n > 0 {
      RunGoes(smtActive, cfg, plan, marks, n - 1);
      TurnGoes(smtActive, cfg, plan.steps, After(Site(smtActive), cfg, plan, (), n - 1), marks[n - 1], marks[n]);
    }
  }

  // ── The plan ────────────────────────────────────────────────────

  /** What the handlers of the plan do. */
  lemma HandlersAct(b: Block)
    ensures Effect("calculate_measurement", b) == b && Effect("verify_id_block_fields", b) == b
    ensures Effect("smt_case_not_applicable", b) == b && Effect(GENERATE, b) == Valid
    ensures FaultOf("calculate_measurement") == FaultOf("verify_id_block_fields") == FaultOf("smt_case_not_applicable")
            == FaultOf(GENERATE) == None
  {
    assert "calculate_measurement"[0] == 'c' && "verify_id_block_fields"[0] == 'v' && GENERATE[0] == 'g';
    assert "smt_case_not_applicable"[1] == 'm';
    assert forall f :: HandlerOf(f)[0] == 's' && HandlerOf(f)[1] == 'e';
  }

  lemma FaultsAct(fault: Fault, b: Block)
    ensures Effect(HandlerOf(fault), b) == Bad(fault) && FaultOf(HandlerOf(fault)) == Some(fault)
  {
    HandlersDiffer(fault);
  }

  const IDLE := Situation(false, Valid)
  const BOOTED := Situation(true, Valid)

  function BadIdle(fault: Fault): Situation {
    Situation(false, Bad(fault))
  }

  lemma ValidFlows(smtActive: bool)
    ensures Flows(smtActive, ShippedPlans.ID_BLOCK_VALID,
                  [Situation(false, Unmade), Situation(false, Unmade), IDLE, BOOTED, BOOTED, BOOTED, IDLE, IDLE])
  {
    hide Effect, FaultOf;
    HandlersAct(Unmade);
    HandlersAct(Valid);
  }

  /** A case of the plan: a handler, a launch that is refused, a stop without a guest. */
  predicate IsRejection(steps: seq<Step>, fault: Fault) {
    && |steps| == 3 && steps[0].action == Callable(HandlerOf(fault)) && steps[0].expected == ExitCode(0)
    && steps[1].action.VmLaunch? && steps[1].expected == StdoutContains(ReasonOf(fault))
    && steps[2].action.VmStop? && steps[2].severity == Info
  }

  lemma RejectionFlows(smtActive: bool, steps: seq<Step>, fault: Fault, s: Situation)
    requires IsRejection(steps, fault) && !s.running && (fault.NoSmt? ==> smtActive)
    ensures Flows(smtActive, steps, [s, BadIdle(fault), BadIdle(fault), BadIdle(fault)])
  {
    hide Effect, FaultOf, HandlerOf, ReasonOf;
    FaultsAct(fault, s.block);
  }

  lemma CasesAreRejections()
    ensures IsRejection(ShippedPlans.ID_BLOCK_MEASUREMENT, BadMeasurement)
    ensures IsRejection(ShippedPlans.ID_BLOCK_SMT, NoSmt)
    ensures IsRejection(ShippedPlans.ID_BLOCK_ABI, AbiMajor255)
  {
  }

  lemma NoSmtFlows(s: Situation)
    ensures Flows(false, ShippedPlans.ID_BLOCK_NO_SMT, [s, s])
  {
    hide Effect, FaultOf;
    HandlersAct(s.block);
  }

  lemma PlanFlows(smtActive: bool) returns (marks: seq<Situation>)
    ensures Flows(smtActive, ShippedPlans.IdBlockSteps(smtActive), marks)
    ensures marks[0] == Situation(false, Unmade) && !marks[|marks| - 1].running
  {
    hide Flows, IsRejection;
    var smt := if smtActive then ShippedPlans.ID_BLOCK_SMT else ShippedPlans.ID_BLOCK_NO_SMT;
    var m1, m2, m3 := BadIdle(BadMeasurement), BadIdle(NoSmt), BadIdle(AbiMajor255);
    var valid := [Situation(false, Unmade), Situation(false, Unmade), IDLE, BOOTED, BOOTED, BOOTED, IDLE, IDLE];
    var cases := if smtActive then [m1, m2, m2, m2] else [m1, m1];
    var last := cases[|cases| - 1];
    CasesAreRejections();
    ValidFlows(smtActive);
    RejectionFlows(smtActive, ShippedPlans.ID_BLOCK_MEASUREMENT, BadMeasurement, IDLE);
    if smtActive {
      RejectionFlows(smtActive, smt, NoSmt, m1);
    } else {
      NoSmtFlows(m1);
    }
    RejectionFlows(smtActive, ShippedPlans.ID_BLOCK_ABI, AbiMajor255, last);
    var bad := [IDLE, m1, m1, m1];
    Joined(smtActive, ShippedPlans.ID_BLOCK_VALID, ShippedPlans.ID_BLOCK_MEASUREMENT, valid, bad);
    Joined(smtActive, ShippedPlans.ID_BLOCK_VALID + ShippedPlans.ID_BLOCK_MEASUREMENT, smt, valid + bad[1..], cases);
    marks := valid + bad[1..] + cases[1..];
    Joined(smtActive, ShippedPlans.ID_BLOCK_VALID + ShippedPlans.ID_BLOCK_MEASUREMENT + smt, ShippedPlans.ID_BLOCK_ABI,
           marks, [last, m3, m3, m3]);
    marks := marks + [last, m3, m3, m3][1..];
  }

  lemma Joined(smtActive: bool, a: seq<Step>, b: seq<Step>, before: seq<Situation>, after: seq<Situation>)
    requires Flows(smtActive, a, before) && Flows(smtActive, b, after)
    requires before != [] && after != [] && before[|before| - 1] == after[0]
    ensures Flows(smtActive, a + b, before + after[1..])
  {
    FlowsOn(smtActive, a, b, before, after);
  }

  /** On this platform, which says so when a guest has booted, the ID block test passes,
      with SMT and without. */
  lemma IdBlockTestCanPass(cfg: Config, declared: VMProfile, smtActive: bool)
    ensures SaysSoWhenBooted(JudgingWorld())
    ensures Execute(WithHandlers(JudgingWorld(), OpenTools(smtActive)), cfg,
                    Plan(ShippedPlans.IdBlockSteps(smtActive), declared, true), ()).verdict == Completed(Pass)
  {
    hide After, Flows, ReasonOf, Real, WithHandlers;
    var plan := Plan(ShippedPlans.IdBlockSteps(smtActive), declared, true);
    var marks := PlanFlows(smtActive);
    MarksPerStep(smtActive, plan.steps, marks);
    RunGoes(smtActive, cfg, plan, marks, |plan.steps|);
  }

  lemma MarksPerStep(smtActive: bool, steps: seq<Step>, marks: seq<Situation>)
    requires Flows(smtActive, steps, marks)
    ensures |marks| == |steps| + 1
  {
  }
}
