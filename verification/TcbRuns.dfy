/** What each step of the config/commit test records, on any machine at all. */
module TcbRuns {
  import opened Models
  import opened Runner
  import opened Executor
  import opened TcbVersions
  import opened SnphostTcb
  import opened Platforms
  import opened TcbPass
  import StepOutcomes
  import Verdicts

  // ── The handlers ────────────────────────────────────────────────

  function Results(m: Machine, cfg: Config, plan: Plan, p: Platform): seq<StepResult> {
    Execute(WorldOf(m), cfg, plan, p).results
  }

  /** It is a run of the test in which step n had its turn. */
  ghost predicate HasTurn(m: Machine, cfg: Config, plan: Plan, lowered: TcbVersion, p: Platform, n: nat) {
    IsTestModule(m) && plan.steps == TcbSteps(lowered) && Verdicts.HadTurn(Results(m, cfg, plan, p), n)
  }

  /** The commit passes exactly if its tool exits with code 0, fails with any other code,
      and is an error if the tool cannot be run; and the platform is what the tool leaves. */
  lemma CommitOutcome(m: Machine, cfg: Config, plan: Plan, lowered: TcbVersion, p: Platform)
    requires HasTurn(m, cfg, plan, lowered, p, 16)
    ensures var result, tool := Results(m, cfg, plan, p)[16].result, m.commit(AtTurn(m, cfg, plan, p, 16));
      && (result == Pass <==> tool.1 == Some(0))
      && (result == Fail <==> tool.1.Some? && tool.1.value != 0)
      && (result == Error <==> tool.1.None?)
      && AtTurn(m, cfg, plan, p, 17) == tool.0
  {
    hide Perform, Advance, Execute, StepsWith, IsTestModule;
    CommitStep(CommandsFor(lowered));
    PlanCalls(m, lowered);
    var r := After(WorldOf(m), cfg, plan, p, 16);
    Verdicts.TurnOf(WorldOf(m), cfg, plan, p, 16);
    CommitVerdict(m, cfg, plan.steps[16], r);
    StepOutcomes.BookkeepingKeeps(WorldOf(m), cfg, plan.steps, r);
  }

  lemma CallStepsExpectZero(c: Commands)
    ensures var s := StepsWith(c);
      s[2].expected == s[6].expected == s[7].expected == s[12].expected == s[15].expected == OK
  {
    hide Name;
  }

  /** The signature step is what its tools said of the report, and fails without one. */
  lemma SignatureOutcome(m: Machine, cfg: Config, plan: Plan, lowered: TcbVersion, p: Platform)
    requires HasTurn(m, cfg, plan, lowered, p, 7)
    ensures var result, q := Results(m, cfg, plan, p)[7].result, AtTurn(m, cfg, plan, p, 7);
      var there, v := LOWERED_REPORT in q.artifacts, m.signature(q);
      && (result == Pass <==> there && v.Returned? && v.code == 0)
      && (result == Fail <==> !there || (v.Returned? && v.code != 0))
      && (result == Error <==> there && v.Broken?)
  {
    hide After, Execute, StepsWith, IsTestModule, Calls;
    CallStepsExpectZero(CommandsFor(lowered));
    PlanCalls(m, lowered);
    RecordedCall(m, cfg, plan, p, 7, VerifyLoweredReportSignature);
  }

  /** The check after the set: it errors only if the tool cannot be run. */
  lemma DifferOutcome(m: Machine, cfg: Config, plan: Plan, lowered: TcbVersion, p: Platform)
    requires HasTurn(m, cfg, plan, lowered, p, 2)
    ensures var result, show := Results(m, cfg, plan, p)[2].result, m.showTcb(AtTurn(m, cfg, plan, p, 2));
      && (result == Error <==> show.None?)
      && (result == Pass <==> && show.Some? && show.value.code == 0
                              && (!Complete(show.value) || PrintsDifference(show.value)))
      && result != Skip
  {
    hide After, Execute, StepsWith, IsTestModule, Complete, PrintsDifference, FieldsMatch, Calls;
    CallStepsExpectZero(CommandsFor(lowered));
    PlanCalls(m, lowered);
    RecordedCall(m, cfg, plan, p, 2, VerifyDiffer);
    var show := m.showTcb(AtTurn(m, cfg, plan, p, 2));
    if show.Some? && show.value.code == 0 {
      HostChecksDecide(show.value);
    }
  }

  /** The guest's report agrees with what the host prints, and the host with itself as it
      should. */
  predicate Agrees(report: ToolOutput, show: ToolOutput, expectMatch: bool)
    requires Readable(Some(report), REPORT_SECTIONS) && Readable(Some(show), HOST_SECTIONS)
  {
    && FieldsMatch(report.sections[ReportedTcb], show.sections[ReportedTcb])
    && FieldsMatch(report.sections[CurrentTcb], show.sections[PlatformTcb])
    && (FieldsMatch(show.sections[ReportedTcb], show.sections[PlatformTcb]) <==> expectMatch)
  }

  /** The two checks of the guest's report. */
  lemma GuestCheckOutcome(m: Machine, cfg: Config, plan: Plan, lowered: TcbVersion, p: Platform, n: nat)
    requires (n == 6 || n == 12) && HasTurn(m, cfg, plan, lowered, p, n)
    ensures var result, q := Results(m, cfg, plan, p)[n].result, AtTurn(m, cfg, plan, p, n);
      && (result == Error <==> ReportOf(n) in q.artifacts && !CanRead(m, q, n))
      && (result == Pass <==> && ReportOf(n) in q.artifacts && CanRead(m, q, n)
                              && Agrees(m.display(q, ReportOf(n)).value, m.showTcb(q).value, n == 12))
      && result != Skip
  {
    hide After, Execute, StepsWith, IsTestModule, FieldsMatch, Calls;
    CallStepsExpectZero(CommandsFor(lowered));
    PlanCalls(m, lowered);
    RecordedCall(m, cfg, plan, p, n, if n == 6 then VerifyGuestReportLowered else VerifyGuestReportRestored);
  }

  /** The gate, and what permission changes. */
  lemma GateOutcome(m: Machine, cfg: Config, plan: Plan, lowered: TcbVersion, p: Platform)
    requires HasTurn(m, cfg, plan, lowered, p, 15)
    ensures var result, q := Results(m, cfg, plan, p)[15].result, AtTurn(m, cfg, plan, p, 15);
      var report := m.display(q, GATE_REPORT);
      && (result == Error <==> GATE_REPORT in q.artifacts && !Readable(report, REPORT_SECTIONS))
      && (result == Pass <==>
            && GATE_REPORT in q.artifacts && Readable(report, REPORT_SECTIONS)
            && (FieldsMatch(report.value.sections[CommittedTcb], report.value.sections[CurrentTcb])
                || cfg.allowHostChanges))
      && result != Skip
  {
    hide After, Execute, StepsWith, IsTestModule, FieldsMatch, Calls;
    CallStepsExpectZero(CommandsFor(lowered));
    PlanCalls(m, lowered);
    RecordedCall(m, cfg, plan, p, 15, VerifyCommittedEqualsCurrent);
  }

  // ── The tools of a passing test ─────────────────────────────────

  lemma PassedTurnDid(m: Machine, cfg: Config, plan: Plan, p: Platform, n: nat)
    requires Execute(WorldOf(m), cfg, plan, p).verdict == Completed(Pass)
    requires n < |plan.steps| && plan.steps[n].severity != Info
    ensures |Results(m, cfg, plan, p)| == |plan.steps| && Results(m, cfg, plan, p)[n].result == Pass
    ensures StepOutcomes.Turn(WorldOf(m), cfg, plan.steps[n], After(WorldOf(m), cfg, plan, p, n),
                              After(WorldOf(m), cfg, plan, p, n + 1), Results(m, cfg, plan, p)[n])
  {
    hide After, Execute, StepOutcomes.Turn;
    Verdicts.PassedStep(WorldOf(m), cfg, plan, p, n);
    Verdicts.ResultsAndVerdict(WorldOf(m), cfg, plan, p);
    StepOutcomes.EveryTurn(WorldOf(m), cfg, plan, p, n);
  }

  predicate Exits0(o: HostOutcome) {
    o.HostExited? && o.code == 0
  }

  lemma HostPassed(m: Machine, cfg: Config, plan: Plan, p: Platform, n: nat)
    requires Execute(WorldOf(m), cfg, plan, p).verdict == Completed(Pass)
    requires n < |plan.steps| && plan.steps[n].severity != Info && plan.steps[n].expected == OK
    requires plan.steps[n].action.Host?
    ensures Exits0(m.host(AtTurn(m, cfg, plan, p, n), plan.steps[n].action.command).1)
  {
    hide After, Execute;
    PassedTurnDid(m, cfg, plan, p, n);
  }

  /** A guest that booted is held. */
  predicate Booted(r: Run<Platform>) {
    r.profile.Some? && r.launch.Some? && r.launch.value.ok
  }

  lemma LaunchPassed(m: Machine, cfg: Config, plan: Plan, p: Platform, n: nat)
    requires Execute(WorldOf(m), cfg, plan, p).verdict == Completed(Pass)
    requires n < |plan.steps| && plan.steps[n].severity != Info && plan.steps[n].expected == OK
    requires plan.steps[n].action.VmLaunch?
    ensures Booted(After(WorldOf(m), cfg, plan, p, n + 1))
  {
    hide After, Execute, StepOutcomes.IsLaunchProfile;
    PassedTurnDid(m, cfg, plan, p, n);
  }

  /** In between, the guest stays. */
  lemma StaysBooted(m: Machine, cfg: Config, plan: Plan, p: Platform, n: nat)
    requires Execute(WorldOf(m), cfg, plan, p).verdict == Completed(Pass)
    requires n < |plan.steps| && plan.steps[n].severity != Info
    requires !plan.steps[n].action.VmLaunch? && !plan.steps[n].action.VmStop?
    requires Booted(After(WorldOf(m), cfg, plan, p, n))
    ensures Booted(After(WorldOf(m), cfg, plan, p, n + 1))
  {
    hide After, Execute;
    PassedTurnDid(m, cfg, plan, p, n);
  }

  lemma TalkPassed(m: Machine, cfg: Config, plan: Plan, p: Platform, n: nat)
    requires Execute(WorldOf(m), cfg, plan, p).verdict == Completed(Pass)
    requires n < |plan.steps| && plan.steps[n].severity != Info && plan.steps[n].expected == OK
    requires Booted(After(WorldOf(m), cfg, plan, p, n))
    ensures var a, q := plan.steps[n].action, AtTurn(m, cfg, plan, p, n);
      && (a.Guest? ==> var o := m.guest(q, a.guestCommand).1; o.GuestExited? && o.code == 0)
      && (a.GuestPull? ==> m.pull(q, a.guestSrc, a.hostDest).1 == Pulled)
  {
    hide After, Execute;
    PassedTurnDid(m, cfg, plan, p, n);
  }

  lemma BootedThroughout(m: Machine, cfg: Config, plan: Plan, lowered: TcbVersion, p: Platform, n: nat)
    requires IsTestModule(m) && plan.steps == TcbSteps(lowered) && 4 <= n <= 12
    requires Execute(WorldOf(m), cfg, plan, p).verdict == Completed(Pass)
    ensures Booted(After(WorldOf(m), cfg, plan, p, n))
  {
    hide After, Execute, StepsWith, Booted, IsTestModule, Calls;
    StepsAct(CommandsFor(lowered));
    PlanCalls(m, lowered);
    if n == 4 {
      LaunchPassed(m, cfg, plan, p, 3);
    } else {
      BootedThroughout(m, cfg, plan, lowered, p, n - 1);
      NoLaunchOrStop(CommandsFor(lowered), n - 1);
      StaysBooted(m, cfg, plan, p, n - 1);
    }
  }

  lemma NoLaunchOrStop(c: Commands, n: nat)
    requires 4 <= n < 12
    ensures !StepsWith(c)[n].action.VmLaunch? && !StepsWith(c)[n].action.VmStop?
  {
    hide Name;
  }

  /** On any machine: in a test that passes every tool did its part in its turn.  The
      three commands of the host exited with code 0, both reports were made in a guest
      that had booted and were pulled from it, the signature held, and the commit tool
      exited with code 0. */
  lemma PassRanTheTools(m: Machine, cfg: Config, plan: Plan, lowered: TcbVersion, p: Platform)
    requires IsTestModule(m) && plan.steps == TcbSteps(lowered)
    requires Execute(WorldOf(m), cfg, plan, p).verdict == Completed(Pass)
    ensures Exits0(m.host(AtTurn(m, cfg, plan, p, 0), SHOW_COMMAND).1)
    ensures Exits0(m.host(AtTurn(m, cfg, plan, p, 1), ConfigSet(lowered, 0)).1)
    ensures Exits0(m.host(AtTurn(m, cfg, plan, p, 8), RESET_COMMAND).1)
    ensures var o := m.guest(AtTurn(m, cfg, plan, p, 4), ReportCommand("report.bin", "request.bin")).1;
      o.GuestExited? && o.code == 0
    ensures m.pull(AtTurn(m, cfg, plan, p, 5), "report.bin", "report.bin").1 == Pulled
    ensures var command := ReportCommand("report_after_reset.bin", "request_after_reset.bin");
      var o := m.guest(AtTurn(m, cfg, plan, p, 10), command).1;
      o.GuestExited? && o.code == 0
    ensures m.pull(AtTurn(m, cfg, plan, p, 11), "report_after_reset.bin", "report_after_reset.bin").1 == Pulled
    ensures var q := AtTurn(m, cfg, plan, p, 7);
      "report.bin" in q.artifacts && m.signature(q).Returned? && m.signature(q).code == 0
    ensures m.commit(AtTurn(m, cfg, plan, p, 16)).1 == Some(0)
  {
    hide After, Execute, StepsWith, Booted, IsTestModule, Calls, ConfigSet, ReportCommand, AtTurn;
    StepsAct(CommandsFor(lowered));
    HostPassed(m, cfg, plan, p, 0);
    HostPassed(m, cfg, plan, p, 1);
    HostPassed(m, cfg, plan, p, 8);
    BootedThroughout(m, cfg, plan, lowered, p, 4);
    TalkPassed(m, cfg, plan, p, 4);
    BootedThroughout(m, cfg, plan, lowered, p, 5);
    TalkPassed(m, cfg, plan, p, 5);
    BootedThroughout(m, cfg, plan, lowered, p, 10);
    TalkPassed(m, cfg, plan, p, 10);
    BootedThroughout(m, cfg, plan, lowered, p, 11);
    TalkPassed(m, cfg, plan, p, 11);
    Verdicts.PassedStep(WorldOf(m), cfg, plan, p, 7);
    SignatureOutcome(m, cfg, plan, lowered, p);
    PassCommits(m, cfg, plan, lowered, p);
  }
}
