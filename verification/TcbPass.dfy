/** What a pass of the config/commit test shows about the platform. */
module TcbPass {
  import opened Models
  import opened Runner
  import opened Executor
  import opened TcbVersions
  import opened SnphostTcb
  import opened Platforms
  import TcbFloor
  import Verdicts

  // ── From the verdict to the handlers ────────────────────────────

  lemma PassedCall(m: Machine, cfg: Config, step: Step, r: Run<Platform>, handler: Handler)
    requires Calls(m, step, handler) && handler != CommitCurrentTcb && step.expected == OK
    requires var sr := Perform(WorldOf(m), cfg, step, r).1; sr.Some? && sr.value.result == Pass
    ensures var v := HandlerVerdict(m, r.world, handler, cfg.allowHostChanges); v.Returned? && v.code == 0
  {
  }

  /** The platform as turn n found it. */
  function AtTurn(m: Machine, cfg: Config, plan: Plan, p: Platform, n: nat): Platform {
    After(WorldOf(m), cfg, plan, p, n).world
  }

  lemma PassedHandler(m: Machine, cfg: Config, plan: Plan, p: Platform, n: nat, handler: Handler)
    requires Execute(WorldOf(m), cfg, plan, p).verdict == Completed(Pass)
    requires n < |plan.steps| && plan.steps[n].severity != Info && plan.steps[n].expected == OK
    requires Calls(m, plan.steps[n], handler) && handler != CommitCurrentTcb
    ensures var v := HandlerVerdict(m, AtTurn(m, cfg, plan, p, n), handler, cfg.allowHostChanges);
      v.Returned? && v.code == 0
  {
    Verdicts.PassedTurn(WorldOf(m), cfg, plan, p, n);
    PassedCall(m, cfg, plan.steps[n], After(WorldOf(m), cfg, plan, p, n), handler);
  }

  // ── From a handler's pass to the platform ───────────────────────

  predicate PrintsAs(m: Machine, a: TcbVersion, b: TcbVersion) {
    FieldsMatch(Show(a, m.printsNone), Show(b, m.printsNone))
  }

  lemma HostFieldsDecide(m: Machine, p: Platform)
    requires WellFormed(p.fw)
    ensures PrintsAs(m, p.fw.reported, p.fw.current) <==> p.fw.reported == p.fw.current
  {
    MatchShown(p.fw.reported, p.fw.current, m.printsNone);
  }

  lemma VerifyOnSections(expectMatch: bool, reported: Fields, platform: Fields)
    ensures VerifyResult(expectMatch, Some(ToolOutput(0, map[ReportedTcb := reported, PlatformTcb := platform])))
            == PASSED
            <==> FieldsMatch(reported, platform) == expectMatch
  {
  }

  /** `verify_differ` and `verify_match` pass on an honest machine only if the values
      really differ, or really agree. */
  lemma VerifyDecides(m: Machine, p: Platform, expectMatch: bool)
    requires HonestOutput(m) && WellFormed(p.fw)
    requires VerifyResult(expectMatch, m.showTcb(p)) == PASSED
    ensures p.fw.reported == p.fw.current <==> expectMatch
  {
    HostFieldsDecide(m, p);
    assert m.showTcb(p).value == ToolOutput(0, ShowSections(p.fw, m.printsNone));
    VerifyOnSections(expectMatch, Show(p.fw.reported, m.printsNone), Show(p.fw.current, m.printsNone));
  }

  lemma GuestOnSections(expectMatch: bool, current: Fields, committed: Fields, reported: Fields,
                        hostReported: Fields, platform: Fields)
    ensures VerifyGuestTcb(expectMatch,
              Some(ToolOutput(0, map[CurrentTcb := current, CommittedTcb := committed, ReportedTcb := reported])),
              Some(ToolOutput(0, map[ReportedTcb := hostReported, PlatformTcb := platform]))) == PASSED
            <==> && FieldsMatch(reported, hostReported) && FieldsMatch(current, platform)
                 && FieldsMatch(hostReported, platform) == expectMatch
  {
  }

  /** The guest's report agrees with the host in Reported and in Current. */
  predicate ReportAgrees(m: Machine, p: Platform, file: string) {
    && file in p.artifacts
    && PrintsAs(m, p.artifacts[file].reported, p.fw.reported)
    && PrintsAs(m, p.artifacts[file].current, p.fw.current)
  }

  lemma GuestCheckDecides(m: Machine, p: Platform, file: string, expectMatch: bool)
    requires HonestOutput(m) && WellFormed(p.fw)
    requires VerifyGuestTcb(expectMatch, m.display(p, file), m.showTcb(p)) == PASSED
    ensures ReportAgrees(m, p, file) && (p.fw.reported == p.fw.current <==> expectMatch)
  {
    HostFieldsDecide(m, p);
    var report, show, none := m.display(p, file), m.showTcb(p), m.printsNone;
    assert Readable(report, REPORT_SECTIONS) && Readable(show, HOST_SECTIONS);
    var r := p.artifacts[file];
    assert report.value == ToolOutput(0, ReportSections(r, none));
    assert show.value == ToolOutput(0, ShowSections(p.fw, none));
    GuestOnSections(expectMatch, Show(r.current, none), Show(r.committed, none), Show(r.reported, none),
                    Show(p.fw.reported, none), Show(p.fw.current, none));
  }

  /** The verdicts of these handlers have exit code 0 only when they are a pass. */
  lemma ZeroIsPassed(expectMatch: bool, report: Option<ToolOutput>, show: Option<ToolOutput>)
    ensures var v := VerifyResult(expectMatch, show); v.Returned? && v.code == 0 ==> v == PASSED
    ensures var v := VerifyGuestTcb(expectMatch, report, show); v.Returned? && v.code == 0 ==> v == PASSED
  {
  }

  // ── The theorem ─────────────────────────────────────────────────

  lemma WellFormedAtTurn(m: Machine, cfg: Config, plan: Plan, lowered: TcbVersion, p: Platform, n: nat)
    requires Honest(m) && IsTestModule(m) && WellFormed(p.fw) && plan.steps == TcbSteps(lowered) && n <= 16
    ensures var q := AtTurn(m, cfg, plan, p, n); WellFormed(q.fw) && KeepsFloor(p, q)
  {
    TcbFloor.PlanEnds(m, lowered);
    TcbFloor.SteadyUntilCommit(m, false, cfg, plan, p, n);
  }

  /** The four checks decide the verdict. */
  predicate Decides(step: Step) {
    step.severity == Required && step.expected == OK
  }

  lemma CheckSteps(c: Commands)
    ensures var s := StepsWith(c); Decides(s[2]) && Decides(s[6]) && Decides(s[9]) && Decides(s[12])
  {
    hide Name;
  }

  /** An exit code of 0 is a pass of the comparison itself. */
  lemma GuestVerdictIsCheck(m: Machine, q: Platform, expectMatch: bool, allow: bool)
    requires var h := if expectMatch then VerifyGuestReportRestored else VerifyGuestReportLowered;
      var v := HandlerVerdict(m, q, h, allow);
      v.Returned? && v.code == 0
    ensures var file := if expectMatch then GATE_REPORT else LOWERED_REPORT;
      VerifyGuestTcb(expectMatch, m.display(q, file), m.showTcb(q)) == PASSED
  {
    hide VerifyGuestTcb, VerifyResult;
    ZeroIsPassed(expectMatch, m.display(q, if expectMatch then GATE_REPORT else LOWERED_REPORT), m.showTcb(q));
  }

  lemma HostCheckAtTurn(m: Machine, cfg: Config, plan: Plan, lowered: TcbVersion, p: Platform, n: nat)
    requires Honest(m) && IsTestModule(m) && WellFormed(p.fw) && plan.steps == TcbSteps(lowered)
    requires Execute(WorldOf(m), cfg, plan, p).verdict == Completed(Pass)
    requires n == 2 || n == 9
    ensures var q := AtTurn(m, cfg, plan, p, n); q.fw.reported == q.fw.current <==> n == 9
  {
    hide After, IsTestModule, StepsWith, HonestHost, HonestGuest, HonestPull, HonestCommit;
    CheckSteps(CommandsFor(lowered));
    var q := AtTurn(m, cfg, plan, p, n);
    PlanCalls(m, lowered);
    WellFormedAtTurn(m, cfg, plan, lowered, p, n);
    PassedHandler(m, cfg, plan, p, n, if n == 2 then VerifyDiffer else VerifyMatch);
    ZeroIsPassed(n == 9, None, m.showTcb(q));
    VerifyDecides(m, q, n == 9);
  }

  lemma GuestCheckAtTurn(m: Machine, cfg: Config, plan: Plan, lowered: TcbVersion, p: Platform, n: nat)
    requires Honest(m) && IsTestModule(m) && WellFormed(p.fw) && plan.steps == TcbSteps(lowered)
    requires Execute(WorldOf(m), cfg, plan, p).verdict == Completed(Pass)
    requires n == 6 || n == 12
    ensures var q := AtTurn(m, cfg, plan, p, n);
      && ReportAgrees(m, q, if n == 6 then LOWERED_REPORT else GATE_REPORT)
      && (q.fw.reported == q.fw.current <==> n == 12)
  {
    hide After, HandlerVerdict, VerifyGuestTcb, ReportAgrees, IsTestModule, StepsWith,
         HonestHost, HonestGuest, HonestPull, HonestCommit;
    CheckSteps(CommandsFor(lowered));
    var q := AtTurn(m, cfg, plan, p, n);
    var file := if n == 6 then LOWERED_REPORT else GATE_REPORT;
    PlanCalls(m, lowered);
    WellFormedAtTurn(m, cfg, plan, lowered, p, n);
    PassedHandler(m, cfg, plan, p, n, if n == 6 then VerifyGuestReportLowered else VerifyGuestReportRestored);
    GuestVerdictIsCheck(m, q, n == 12, cfg.allowHostChanges);
    GuestCheckDecides(m, q, file, n == 12);
  }

  lemma CommitStep(c: Commands)
    ensures Decides(StepsWith(c)[16])
  {
    hide Name;
  }

  lemma CommitVerdict(m: Machine, cfg: Config, step: Step, r: Run<Platform>)
    requires Calls(m, step, CommitCurrentTcb) && step.expected == OK
    ensures var (r', sr) := Perform(WorldOf(m), cfg, step, r);
      && r'.world == m.commit(r.world).0 && sr.Some?
      && var code := m.commit(r.world).1;
         sr.value.result == if code == Some(0) then Pass else if code.Some? then Fail else Error
  {
  }

  /** A test passes only if the commit tool exited with code 0. */
  lemma PassCommits(m: Machine, cfg: Config, plan: Plan, lowered: TcbVersion, p: Platform)
    requires IsTestModule(m) && plan.steps == TcbSteps(lowered)
    requires Execute(WorldOf(m), cfg, plan, p).verdict == Completed(Pass)
    ensures m.commit(AtTurn(m, cfg, plan, p, 16)).1 == Some(0)
  {
    hide After, Perform, IsTestModule, StepsWith;
    CommitStep(CommandsFor(lowered));
    PlanCalls(m, lowered);
    Verdicts.PassedTurn(WorldOf(m), cfg, plan, p, 16);
    CommitVerdict(m, cfg, plan.steps[16], After(WorldOf(m), cfg, plan, p, 16));
  }

  /** On any honest machine, if the test passes then Reported really differed from the
      platform's TCB when it was checked after the set, and again while the guest's
      report of the lowered value was checked against it; and it really equalled it at
      both checks after the reset, in the guest's second report too.  Current and the
      floor stayed put until the commit, whose tool exited with code 0. */
  lemma PassIsSound(m: Machine, cfg: Config, plan: Plan, lowered: TcbVersion, p: Platform)
    requires Honest(m) && IsTestModule(m) && WellFormed(p.fw) && plan.steps == TcbSteps(lowered)
    requires Execute(WorldOf(m), cfg, plan, p).verdict == Completed(Pass)
    ensures var q := AtTurn(m, cfg, plan, p, 2); q.fw.reported != q.fw.current
    ensures var q := AtTurn(m, cfg, plan, p, 6);
      ReportAgrees(m, q, LOWERED_REPORT) && q.fw.reported != q.fw.current
    ensures var q := AtTurn(m, cfg, plan, p, 9); q.fw.reported == q.fw.current
    ensures var q := AtTurn(m, cfg, plan, p, 12);
      ReportAgrees(m, q, GATE_REPORT) && q.fw.reported == q.fw.current
    ensures var q := AtTurn(m, cfg, plan, p, 16); KeepsFloor(p, q) && m.commit(q).1 == Some(0)
  {
    PassCommits(m, cfg, plan, lowered, p);
    HostCheckAtTurn(m, cfg, plan, lowered, p, 2);
    HostCheckAtTurn(m, cfg, plan, lowered, p, 9);
    GuestCheckAtTurn(m, cfg, plan, lowered, p, 6);
    GuestCheckAtTurn(m, cfg, plan, lowered, p, 12);
    WellFormedAtTurn(m, cfg, plan, lowered, p, 16);
  }

  // ── What the host checks make of incomplete output ──────────────

  /** Every core field is printed in both sections. */
  predicate Complete(out: ToolOutput) {
    forall f | f in CORE_FIELDS :: f in SectionOf(out, ReportedTcb) && f in SectionOf(out, PlatformTcb)
  }

  /** Some field is printed in both sections, with different values. */
  predicate PrintsDifference(out: ToolOutput) {
    exists f | f in ALL_FIELDS && f in SectionOf(out, ReportedTcb) && f in SectionOf(out, PlatformTcb) ::
      SectionOf(out, ReportedTcb)[f] != SectionOf(out, PlatformTcb)[f]
  }

  /** Outcome by outcome: a missing core field counts as a difference.  After a reset
      that raises instead of failing, as every mismatch does. */
  lemma HostChecksDecide(out: ToolOutput)
    requires out.code == 0
    ensures VerifyResult(false, Some(out)) == if Complete(out) && !PrintsDifference(out) then FAILED else PASSED
    ensures VerifyResult(true, Some(out)) == if Complete(out) && !PrintsDifference(out) then PASSED else RAISED
  {
    var reported, platform := SectionOf(out, ReportedTcb), SectionOf(out, PlatformTcb);
    if f :| f in ALL_FIELDS && f in reported && f in platform && reported[f] != platform[f] {
      assert !FieldsMatch(reported, platform);
    }
  }

  /** A pass of verify-differ shows a difference exactly on complete output, or where
      one is printed anyway.  A pass of verify-match always shows agreement; but where
      the values printed do not differ, it refuses agreement exactly on incomplete
      output. */
  lemma HostPassShowsDifference(out: ToolOutput)
    requires out.code == 0
    ensures (VerifyResult(false, Some(out)) == PASSED ==> PrintsDifference(out))
            <==> Complete(out) || PrintsDifference(out)
    ensures VerifyResult(true, Some(out)) == PASSED ==> Complete(out) && !PrintsDifference(out)
    ensures !PrintsDifference(out) ==> (VerifyResult(true, Some(out)) == RAISED <==> !Complete(out))
  {
    HostChecksDecide(out);
  }

  /** The branches that read an unbound name: a check of the guest's report raises exactly
      when one of the two outputs cannot be read, and the gate exactly when its report
      cannot. */
  lemma UnreadableOutputRaises(expectMatch: bool, allow: bool, report: Option<ToolOutput>, show: Option<ToolOutput>)
    ensures VerifyGuestTcb(expectMatch, report, show) == RAISED
            <==> !Readable(report, REPORT_SECTIONS) || !Readable(show, HOST_SECTIONS)
    ensures CommitGate(allow, report) == RAISED <==> !Readable(report, REPORT_SECTIONS)
  {
  }

  /** Verify-differ passes on output without sections, where verify-match raises; the
      two checks of the guest's report raise on such output. */
  lemma UnreadableOutputDiffers(report: Option<ToolOutput>, expectMatch: bool)
    ensures VerifyResult(false, Some(ToolOutput(0, map[]))) == PASSED
    ensures VerifyResult(true, Some(ToolOutput(0, map[]))) == RAISED
    ensures VerifyGuestTcb(expectMatch, report, Some(ToolOutput(0, map[]))) == RAISED
  {
    var show := ToolOutput(0, map[]);
    assert BootLoader in CORE_FIELDS && BootLoader !in SectionOf(show, ReportedTcb);
    HostChecksDecide(show);
  }

  // ── The outcomes of the checks in a run ─────────────────────────

  /** A step's result is what its handler makes of the platform at its turn. */
  lemma RecordedCall(m: Machine, cfg: Config, plan: Plan, p: Platform, n: nat, handler: Handler)
    requires n < |plan.steps| && Calls(m, plan.steps[n], handler) && handler != CommitCurrentTcb
    requires Verdicts.HadTurn(Execute(WorldOf(m), cfg, plan, p).results, n)
    ensures CallResult(plan.steps[n],
                       HandlerVerdict(m, AtTurn(m, cfg, plan, p, n), handler, cfg.allowHostChanges))
            == Some(Execute(WorldOf(m), cfg, plan, p).results[n])
  {
    hide After, Execute, HandlerVerdict, CallResult;
    Verdicts.CallOfTurn(WorldOf(m), cfg, plan, p, n);
  }

  /** The check after the reset, in any run of the test: it fails only if the tool did,
      and a mismatch it finds is an error, like output it cannot use. */
  lemma MatchIsNeverRefuted(m: Machine, cfg: Config, plan: Plan, lowered: TcbVersion, p: Platform)
    requires IsTestModule(m) && plan.steps == TcbSteps(lowered)
    requires Verdicts.HadTurn(Execute(WorldOf(m), cfg, plan, p).results, 9)
    ensures var result := Execute(WorldOf(m), cfg, plan, p).results[9].result;
      var show := m.showTcb(AtTurn(m, cfg, plan, p, 9));
      && (result == Fail <==> show.Some? && show.value.code != 0)
      && (result == Pass <==> && show.Some? && show.value.code == 0
                              && Complete(show.value) && !PrintsDifference(show.value))
      && (result == Error <==> show.None? || (show.value.code == 0
                                              && (!Complete(show.value) || PrintsDifference(show.value))))
  {
    hide After, Execute, StepsWith, IsTestModule, Complete, PrintsDifference, FieldsMatch;
    CheckSteps(CommandsFor(lowered));
    PlanCalls(m, lowered);
    RecordedCall(m, cfg, plan, p, 9, VerifyMatch);
    var show := m.showTcb(AtTurn(m, cfg, plan, p, 9));
    if show.Some? && show.value.code == 0 {
      HostChecksDecide(show.value);
    }
  }

  /** The report that a check of the plan reads, and whether it can read what it needs. */
  function ReportOf(n: nat): string {
    if n == 6 then LOWERED_REPORT else GATE_REPORT
  }

  predicate CanRead(m: Machine, p: Platform, n: nat) {
    Readable(m.display(p, ReportOf(n)), REPORT_SECTIONS) && (n != 15 ==> Readable(m.showTcb(p), HOST_SECTIONS))
  }

  lemma UnreadableVerdict(m: Machine, q: Platform, n: nat, allow: bool)
    requires n == 6 || n == 12 || n == 15
    ensures var h := if n == 6 then VerifyGuestReportLowered
                     else if n == 12 then VerifyGuestReportRestored else VerifyCommittedEqualsCurrent;
      var v := HandlerVerdict(m, q, h, allow);
      !v.CallEscapes? && (v.Broken? <==> ReportOf(n) in q.artifacts && !CanRead(m, q, n))
  {
    UnreadableOutputRaises(n == 12, allow, m.display(q, ReportOf(n)), m.showTcb(q));
  }

  lemma GateStep(c: Commands)
    ensures StepsWith(c)[15].severity == Setup
  {
    hide Name;
  }

  lemma SetupErrorHalts<W>(world: World<W>, cfg: Config, steps: seq<Step>, r: Run<W>)
    requires |r.results| < |steps| && steps[|r.results|].severity == Setup
    requires var sr := Perform(world, cfg, steps[|r.results|], r).1; sr.Some? && sr.value.result == Error
    ensures Advance(world, cfg, steps, r).status.Halted?
  {
    hide Perform;
  }

  /** The two checks of the guest's report and the gate, in any run: they end in an error
      exactly when the report is there but what they need cannot be read.  At the gate
      that ends the test before the commit. */
  lemma UnreadableOutputErrors(m: Machine, cfg: Config, plan: Plan, lowered: TcbVersion, p: Platform, n: nat)
    requires IsTestModule(m) && plan.steps == TcbSteps(lowered) && (n == 6 || n == 12 || n == 15)
    requires Verdicts.HadTurn(Execute(WorldOf(m), cfg, plan, p).results, n)
    ensures var result, q := Execute(WorldOf(m), cfg, plan, p).results[n].result, AtTurn(m, cfg, plan, p, n);
      && (result == Error <==> ReportOf(n) in q.artifacts && !CanRead(m, q, n))
      && (n == 15 && result == Error ==> After(WorldOf(m), cfg, plan, p, 16).status.Halted?)
  {
    hide Perform, Advance, Execute, StepsWith, IsTestModule, HandlerVerdict, CanRead;
    PlanCalls(m, lowered);
    var h := if n == 6 then VerifyGuestReportLowered
             else if n == 12 then VerifyGuestReportRestored else VerifyCommittedEqualsCurrent;
    RecordedCall(m, cfg, plan, p, n, h);
    UnreadableVerdict(m, AtTurn(m, cfg, plan, p, n), n, cfg.allowHostChanges);
    if n == 15 && Execute(WorldOf(m), cfg, plan, p).results[n].result == Error {
      GateStep(CommandsFor(lowered));
      Verdicts.TurnOf(WorldOf(m), cfg, plan, p, n);
      SetupErrorHalts(WorldOf(m), cfg, plan.steps, After(WorldOf(m), cfg, plan, p, n));
    }
  }
}
