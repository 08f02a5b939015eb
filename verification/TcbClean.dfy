/** What the config/commit test leaves in Reported: when the set is undone. */
module TcbClean {
  import opened Models
  import opened VmProfiles
  import opened Runner
  import opened Executor
  import opened TcbVersions
  import opened SnphostTcb
  import opened Platforms
  import opened TcbSafety
  import Verdicts
  import TcbFloor
  import TcbConforming

  // ── When the reset runs ─────────────────────────────────────────

  /** No exception leaves the turns from lo to hi. */
  ghost predicate Reports<W>(world: World<W>, cfg: Config, plan: Plan, w: W, lo: nat, hi: nat)
    requires hi <= |plan.steps|
  {
    forall n | lo <= n < hi :: Perform(world, cfg, plan.steps[n], After(world, cfg, plan, w, n)).1.Some?
  }

  /** One turn that is no setup step goes on exactly if it reports. */
  lemma TurnGoesOn<W>(world: World<W>, cfg: Config, plan: Plan, w: W, n: nat)
    requires n < |plan.steps| && plan.steps[n].severity != Setup && After(world, cfg, plan, w, n).status.Running?
    ensures After(world, cfg, plan, w, n + 1).status.Running?
            <==> Perform(world, cfg, plan.steps[n], After(world, cfg, plan, w, n)).1.Some?
  {
    hide Perform;
    WasRunning(world, cfg, plan, w, n, n);
    var r := After(world, cfg, plan, w, n);
    assert After(world, cfg, plan, w, n + 1) == Advance(world, cfg, plan.steps, r);
  }

  lemma {:induction false} GoesOnWhileReporting<W>(world: World<W>, cfg: Config, plan: Plan, w: W, lo: nat, n: nat)
    requires NoSetup(plan.steps, lo, n) && lo <= n && After(world, cfg, plan, w, lo).status.Running?
    ensures After(world, cfg, plan, w, n).status.Running? <==> Reports(world, cfg, plan, w, lo, n)
    decreases n - lo
  {
    hide Perform, After;
    if n > lo {
      GoesOnWhileReporting(world, cfg, plan, w, lo, n - 1);
      if After(world, cfg, plan, w, n - 1).status.Running? {
        TurnGoesOn(world, cfg, plan, w, n - 1);
      } else if After(world, cfg, plan, w, n).status.Running? {
        WasRunning(world, cfg, plan, w, n - 1, n);
      }
    }
  }

  /** In every world, once `show tcb` has passed: the reset runs exactly when no
      exception leaves the seven steps before it, the set among them. */
  lemma ResetRunsIff<W>(world: World<W>, cfg: Config, plan: Plan, lowered: TcbVersion, w: W)
    requires plan.steps == TcbSteps(lowered) && After(world, cfg, plan, w, 1).status.Running?
    ensures HostRan(plan.steps[8]) in Execute(world, cfg, plan, w).trace <==> Reports(world, cfg, plan, w, 1, 8)
  {
    hide Perform, After, StepsWith, Reports;
    TcbStepsShape(lowered);
    GoesOnWhileReporting(world, cfg, plan, w, 1, 8);
    RunsOn(world, cfg, plan, w, 1, 8);
    if After(world, cfg, plan, w, 8).status.Running? {
      HostTurn(world, cfg, plan, w, 8);
      InTrace(After(world, cfg, plan, w, 8).trace, HostRan(plan.steps[8]), Execute(world, cfg, plan, w).trace);
    } else {
      EscapedEarly(world, cfg, plan, w, 8);
    }
  }

  lemma InTrace(before: seq<Event>, e: Event, t: seq<Event>)
    requires before + [e] <= t
    ensures e in t
  {
    assert t[|before|] == (before + [e])[|before|] == e;
  }

  /** Where nothing raises past the harness, a test that gets to the set runs both
      resets, and returns if its last stop does not raise. */
  lemma ResetsWithoutEscapes<W(!new)>(world: World<W>, cfg: Config, plan: Plan, lowered: TcbVersion, w: W)
    requires plan.steps == TcbSteps(lowered) && After(world, cfg, plan, w, 1).status.Running?
    requires Verdicts.NeverEscapes(world)
    ensures RanInTurn(world, cfg, plan, w, 1) && RanInTurn(world, cfg, plan, w, 8) && RanInTurn(world, cfg, plan, w, 14)
    ensures After(world, cfg, plan, w, 14).status.Running?
  {
    hide Perform, After, StepsWith, Verdicts.NeverEscapes;
    TcbStepsShape(lowered);
    forall n | 1 <= n < 14 ensures Perform(world, cfg, plan.steps[n], After(world, cfg, plan, w, n)).1.Some? {
      Verdicts.PerformReports(world, cfg, plan.steps[n], After(world, cfg, plan, w, n));
    }
    GoesOnWhileReporting(world, cfg, plan, w, 1, 14);
    WasRunning(world, cfg, plan, w, 8, 14);
    HostTurn(world, cfg, plan, w, 1);
    HostTurn(world, cfg, plan, w, 8);
    HostTurn(world, cfg, plan, w, 14);
  }

  // ── What is left in Reported ────────────────────────────────────

  predicate Clean(p: Platform) {
    p.fw.reported == p.fw.current
  }

  /** The reset works, whatever it says about itself; showing the TCB, committing it and
      stopping a guest leave a clean configuration clean.  Nothing is asked of the set,
      the guests and the reports. */
  ghost predicate ResetWorks(m: Machine) {
    && (forall p :: Clean(m.host(p, RESET_COMMAND).0))
    && (forall p | Clean(p) :: Clean(m.host(p, SHOW_COMMAND).0))
    && (forall p | Clean(p) :: Clean(m.commit(p).0))
    && (forall p, l | Clean(p) :: Clean(m.stop(p, l).0))
  }

  lemma HostTurnCleans(m: Machine, cfg: Config, steps: seq<Step>, r: Run<Platform>)
    requires ResetWorks(m) && |r.results| < |steps|
    requires steps[|r.results|].action == Host(RESET_COMMAND)
             || (steps[|r.results|].action == Host(SHOW_COMMAND) && Clean(r.world))
    ensures Clean(Advance(WorldOf(m), cfg, steps, r).world)
  {
    hide HostResult, Advance;
    TcbFloor.AdvanceKeepsWorld(WorldOf(m), cfg, steps, r);
    assert Clean(r.world) ==> Clean(m.host(r.world, SHOW_COMMAND).0);
  }

  lemma CallTurnKeepsClean(m: Machine, cfg: Config, steps: seq<Step>, r: Run<Platform>)
    requires ResetWorks(m) && |r.results| < |steps|
    requires steps[|r.results|].action.Callable? && Clean(r.world)
    ensures Clean(Advance(WorldOf(m), cfg, steps, r).world)
  {
    hide HandlerVerdict, CallResult, Advance;
    TcbFloor.AdvanceKeepsWorld(WorldOf(m), cfg, steps, r);
    assert Clean(m.commit(r.world).0);
  }

  lemma FinishKeepsClean(m: Machine, r: Run<Platform>)
    requires ResetWorks(m) && Clean(r.world)
    ensures Clean(Finish(WorldOf(m), r).world)
  {
    if r.launch.Some? {
      assert Clean(m.stop(r.world, r.launch.value).0);
    }
  }

  /** A turn of calls keeps it clean, whether or not it is reached. */
  lemma CallsKeepClean(m: Machine, cfg: Config, plan: Plan, p: Platform, n: nat)
    requires ResetWorks(m) && n < |plan.steps| && plan.steps[n].action.Callable?
    requires Clean(After(WorldOf(m), cfg, plan, p, n).world)
    ensures Clean(After(WorldOf(m), cfg, plan, p, n + 1).world)
  {
    hide ResetWorks, Advance;
    var r := After(WorldOf(m), cfg, plan, p, n);
    if r.status.Running? {
      WasRunning(WorldOf(m), cfg, plan, p, n, n);
      CallTurnKeepsClean(m, cfg, plan.steps, r);
    }
  }

  lemma LastStepsAreCalls(c: Commands)
    ensures var s := StepsWith(c); |s| == 17 && s[15].action.Callable? && s[16].action.Callable?
  {
    hide Name;
  }

  /** Once the teardown reset is reached, the configuration ends up clean. */
  lemma CleanFromTeardown(m: Machine, cfg: Config, plan: Plan, lowered: TcbVersion, p: Platform)
    requires ResetWorks(m) && plan.steps == TcbSteps(lowered)
    requires After(WorldOf(m), cfg, plan, p, 14).status.Running?
    ensures Clean(Execute(WorldOf(m), cfg, plan, p).world)
  {
    hide ResetWorks, Advance, Finish, StepsWith;
    TcbStepsShape(lowered);
    LastStepsAreCalls(CommandsFor(lowered));
    var world, n := WorldOf(m), 14;
    WasRunning(world, cfg, plan, p, n, n);
    HostTurnCleans(m, cfg, plan.steps, After(world, cfg, plan, p, n));
    assert After(world, cfg, plan, p, n + 1) == Advance(world, cfg, plan.steps, After(world, cfg, plan, p, n));
    CallsKeepClean(m, cfg, plan, p, n + 1);
    CallsKeepClean(m, cfg, plan, p, n + 2);
    FinishKeepsClean(m, After(world, cfg, plan, p, n + 3));
  }

  /** On any machine whose reset works, whatever else fails, lies or is refused, every
      test that returns leaves Reported at Current: if it was there, or if the test got
      past `show tcb`. */
  lemma ReturningTestsLeaveClean(m: Machine, cfg: Config, plan: Plan, lowered: TcbVersion, p: Platform)
    requires ResetWorks(m) && plan.steps == TcbSteps(lowered)
    requires Execute(WorldOf(m), cfg, plan, p).verdict.Completed?
    requires Clean(p) || After(WorldOf(m), cfg, plan, p, 1).status.Running?
    ensures Clean(Execute(WorldOf(m), cfg, plan, p).world)
  {
    hide ResetWorks, Advance, Finish, StepsWith;
    TcbStepsShape(lowered);
    var world, n := WorldOf(m), 1;
    if After(world, cfg, plan, p, n).status.Running? {
      ReturnMeansTeardown(world, cfg, plan, lowered, p);
      CleanFromTeardown(m, cfg, plan, lowered, p);
    } else {
      FirstTurnKeepsClean(m, cfg, plan, lowered, p);
      StaysPut(world, cfg, plan, p, n, |plan.steps|);
      FinishKeepsClean(m, After(world, cfg, plan, p, n));
    }
  }

  lemma ShowComesFirst(c: Commands)
    ensures StepsWith(c)[0].action == Host(c.show)
  {
    hide Name;
  }

  lemma FirstTurnKeepsClean(m: Machine, cfg: Config, plan: Plan, lowered: TcbVersion, p: Platform)
    requires ResetWorks(m) && plan.steps == TcbSteps(lowered) && Clean(p)
    ensures Clean(After(WorldOf(m), cfg, plan, p, 1).world)
  {
    hide ResetWorks, Advance, StepsWith;
    ShowComesFirst(CommandsFor(lowered));
    var world, n := WorldOf(m), 0;
    HostTurnCleans(m, cfg, plan.steps, After(world, cfg, plan, p, n));
    assert After(world, cfg, plan, p, n + 1) == Advance(world, cfg, plan.steps, After(world, cfg, plan, p, n));
  }

  lemma ReturnMeansTeardown<W>(world: World<W>, cfg: Config, plan: Plan, lowered: TcbVersion, w: W)
    requires plan.steps == TcbSteps(lowered) && After(world, cfg, plan, w, 1).status.Running?
    requires Execute(world, cfg, plan, w).verdict.Completed?
    ensures After(world, cfg, plan, w, 14).status.Running?
  {
    hide Advance, StepsWith;
    TcbStepsShape(lowered);
    RunsOn(world, cfg, plan, w, 1, 14);
    if After(world, cfg, plan, w, 14).status.Escaped? {
      StaysPut(world, cfg, plan, w, 14, |plan.steps|);
    }
  }

  /** Where nothing raises past the harness, so does every test that gets past `show
      tcb`, even one whose last stop is refused. */
  lemma TestsWithoutEscapesLeaveClean(m: Machine, cfg: Config, plan: Plan, lowered: TcbVersion, p: Platform)
    requires ResetWorks(m) && plan.steps == TcbSteps(lowered) && Verdicts.NeverEscapes(WorldOf(m))
    requires After(WorldOf(m), cfg, plan, p, 1).status.Running?
    ensures Clean(Execute(WorldOf(m), cfg, plan, p).world)
  {
    hide ResetWorks, Verdicts.NeverEscapes, After, Finish, StepsWith;
    ResetsWithoutEscapes(WorldOf(m), cfg, plan, lowered, p);
    CleanFromTeardown(m, cfg, plan, lowered, p);
  }

  /** There are such machines: the obedient one. */
  lemma ObedientNeverEscapes(printsNone: bool)
    ensures var m := TcbConforming.ObedientMachine(printsNone);
      Verdicts.NeverEscapes(WorldOf(m)) && ResetWorks(m)
  {
    hide TcbConforming.Understand, TcbConforming.ReportFile, ShowSections, ReportSections;
    TcbConforming.ResetUnderstood();
    TcbConforming.ShowUnderstood();
    NeverEscapesFrom(TcbConforming.ObedientMachine(printsNone));
  }

  /** What it takes of a machine: every tool reports. */
  ghost predicate ToolsReport(m: Machine) {
    && (forall p, c :: !m.host(p, c).1.HostEscapes?)
    && (forall p, v :: !m.launch(p, v).1.LaunchEscapes?)
    && (forall p, l :: !m.stop(p, l).1.StopEscapes?)
    && (forall p, c :: !m.guest(p, c).1.GuestEscapes?)
    && (forall p, src, dest :: !m.pull(p, src, dest).1.PullEscapes?)
    && (forall p, v :: !m.journal(p, v).1.JournalEscapes?)
    && (forall p :: !m.signature(p).CallEscapes?)
  }

  lemma HandlersNeverEscape(m: Machine, p: Platform, h: string, allow: bool)
    requires !m.signature(p).CallEscapes?
    ensures !Handle(m, p, h, allow).1.CallEscapes?
  {
    hide Name, Readable;
  }

  /** On a machine whose tools report, nothing raises past the harness. */
  lemma NeverEscapesFrom(m: Machine)
    requires ToolsReport(m)
    ensures Verdicts.NeverEscapes(WorldOf(m))
  {
    hide Handle;
    var world := WorldOf(m);
    forall p, h, v ensures !world.call(p, h, v).1.verdict.CallEscapes? {
      HandlersNeverEscape(m, p, h, v.allowHostChanges);
    }
  }

  // ── A run that leaves it lowered ────────────────────────────────

  /** The obedient machine, but sending a command to the guest raises an OSError that
      the vsock client does not catch. */
  function UnsentMachine(printsNone: bool): Machine {
    TcbConforming.ObedientMachine(printsNone).(guest := (p: Platform, c: string) => (p, GuestEscapes))
  }

  lemma UnsentIsHonest(printsNone: bool)
    ensures Honest(UnsentMachine(printsNone)) && IsTestModule(UnsentMachine(printsNone))
  {
    hide TcbConforming.Understand, TcbConforming.ReportFile, ShowSections, ReportSections, TcbConforming.HostEffect,
         TcbConforming.CommitEffect, TcbConforming.HostCode;
    TcbConforming.ObedientMachineIsHonest(printsNone);
    TcbFloor.AttributeIsTestModule(UnsentMachine(printsNone));
  }

  lemma UnsentObeys(printsNone: bool)
    ensures var m := UnsentMachine(printsNone);
      && TcbConforming.ObedientHost(m) && TcbConforming.ObedientVm(m) && TcbConforming.ObedientTools(m)
      && TcbConforming.ReadsCommands(m)
  {
    hide TcbConforming.ObedientHost, TcbConforming.ObedientVm, TcbConforming.ObedientGuest,
         TcbConforming.ObedientTools, TcbConforming.ReadsCommands, TcbConforming.ObedientMachine;
    var m := TcbConforming.ObedientMachine(printsNone);
    TcbConforming.ObedientHostSide(printsNone);
    TcbConforming.ObedientGuestSide(printsNone);
    TcbConforming.ObedientMachineIsObedient(printsNone);
    OtherGuestObeys(m, UnsentMachine(printsNone));
  }

  /** Another guest side changes nothing on the host's. */
  lemma OtherGuestObeys(m: Machine, m': Machine)
    requires m' == m.(guest := m'.guest)
    ensures TcbConforming.ObedientHost(m) ==> TcbConforming.ObedientHost(m')
    ensures TcbConforming.ObedientVm(m) ==> TcbConforming.ObedientVm(m')
    ensures TcbConforming.ObedientTools(m) ==> TcbConforming.ObedientTools(m')
    ensures TcbConforming.ReadsCommands(m) ==> TcbConforming.ReadsCommands(m')
  {
    hide TcbConforming.Understand, TcbConforming.ReportFile, ShowSections, ReportSections, TcbConforming.HostEffect,
         TcbConforming.CommitEffect, TcbConforming.HostCode, OnlyFirmware;
  }

  lemma UnsentResetWorks(printsNone: bool)
    ensures ResetWorks(UnsentMachine(printsNone))
  {
    hide TcbConforming.Understand, TcbConforming.ReportFile, ShowSections, ReportSections;
    TcbConforming.ResetUnderstood();
    TcbConforming.ShowUnderstood();
  }

  /** The turn that sends the command raises, and leaves the firmware as it was. */
  lemma UnsentTurn(printsNone: bool, cfg: Config, steps: seq<Step>, r: Run<Platform>)
    requires |r.results| < |steps| && steps[|r.results|].action.Guest?
    requires r.profile.Some? && r.launch.Some? && r.launch.value.ok
    ensures Perform(WorldOf(UnsentMachine(printsNone)), cfg, steps[|r.results|], r).1.None?
    ensures var r' := Advance(WorldOf(UnsentMachine(printsNone)), cfg, steps, r);
      r'.status.Escaped? && r'.world.fw == r.world.fw && r'.launch == r.launch
  {
    var m := UnsentMachine(printsNone);
    assert m.guest(r.world, steps[|r.results|].action.guestCommand) == (r.world, GuestEscapes);
  }

  /** That turn is reached with Reported lowered, and the test ends there. */
  lemma UnsentRun(printsNone: bool, cfg: Config, plan: Plan, lowered: TcbVersion, p: Platform, o: nat)
    requires o == 0 && |plan.steps| == 17 && plan.requiresVm
    requires TcbConforming.LoweringPart(UnsentMachine(printsNone), plan, o, lowered)
    requires WellFormed(p.fw) && p.fw.committed == p.fw.current
    requires Natural(lowered) && AtMost(lowered, p.fw.current) && lowered != p.fw.current
    requires lowered.fmc == p.fw.current.fmc
    ensures var world := WorldOf(UnsentMachine(printsNone));
      && After(world, cfg, plan, p, 4).status.Running?
      && Perform(world, cfg, plan.steps[4], After(world, cfg, plan, p, 4)).1.None?
      && Execute(world, cfg, plan, p).verdict == Raised
      && Execute(world, cfg, plan, p).world.fw == p.fw.(reported := lowered)
  {
    hide Advance, Perform, TcbConforming.LoweringPart, TcbConforming.ObedientHost, TcbConforming.ObedientTools,
         UnsentMachine;
    var m := UnsentMachine(printsNone);
    var world, s := WorldOf(m), TcbConforming.Stage(false, p.fw, p.artifacts, p.guestFiles);
    UnsentObeys(printsNone);
    TcbConforming.StartingWell(m, cfg, plan, p);
    TcbConforming.SetAndLaunch(m, cfg, plan, lowered, p, o, s);
    var r := After(world, cfg, plan, p, o + 4);
    assert TcbConforming.At(r, o + 4, TcbConforming.Lowered(s, lowered));
    ReportStepIsGuest(m, plan, o, lowered);
    UnsentTurn(printsNone, cfg, plan.steps, r);
    assert After(world, cfg, plan, p, o + 5) == Advance(world, cfg, plan.steps, r);
    StaysPut(world, cfg, plan, p, o + 5, |plan.steps|);
    StopKeepsFirmware(m, After(world, cfg, plan, p, |plan.steps|));
  }

  lemma ReportStepIsGuest(m: Machine, plan: Plan, o: nat, lowered: TcbVersion)
    requires TcbConforming.LoweringPart(m, plan, o, lowered)
    ensures o + 8 <= |plan.steps| && plan.steps[o + 4].action.Guest?
  {
  }

  lemma StopKeepsFirmware(m: Machine, r: Run<Platform>)
    requires TcbConforming.ObedientVm(m) && r.status.Escaped?
    ensures Finish(WorldOf(m), r).world.fw == r.world.fw && Finish(WorldOf(m), r).verdict == Raised
  {
    if r.launch.Some? {
      assert m.stop(r.world, r.launch.value).0.fw == r.world.fw;
    }
  }

  /** Whatever there is to lower, on this honest machine, whose set and reset work, the
      test runs the set, never the reset, raises, and leaves Reported lowered. */
  lemma EscapeLeavesLowered(printsNone: bool, cfg: Config, declared: VMProfile, p: Platform)
    requires WellFormed(p.fw) && p.fw.committed == p.fw.current && CoreSum(p.fw.current) != 0
    ensures Honest(UnsentMachine(printsNone)) && ResetWorks(UnsentMachine(printsNone))
    ensures LoadTcbPlan(UnsentMachine(printsNone), p, declared).Some?
    ensures var plan := LoadTcbPlan(UnsentMachine(printsNone), p, declared).value;
      var end := Execute(WorldOf(UnsentMachine(printsNone)), cfg, plan, p);
      && HostRan(plan.steps[1]) in end.trace && HostRan(plan.steps[8]) !in end.trace
      && end.verdict == Raised && end.world.fw.reported != end.world.fw.current
  {
    hide Perform, After, Execute, UnsentMachine, StepsWith, TcbConforming.LoweringPart, TcbConforming.RestoringPart,
         TcbConforming.ObedientTools, TcbConforming.ReadsCommands, Honest, ResetWorks, IsTestModule;
    var m, lowered := UnsentMachine(printsNone), Lower(p.fw.current).value;
    UnsentIsHonest(printsNone);
    UnsentResetWorks(printsNone);
    UnsentObeys(printsNone);
    TcbConforming.LoadedPlan(m, p, declared);
    LoweringIsExact(p.fw.current, m.printsNone);
    var plan := Plan(TcbSteps(lowered), declared, true);
    TcbConforming.PlanHasParts(m, plan, lowered);
    UnsentRun(printsNone, cfg, plan, lowered, p, 0);
    StrandedTrace(WorldOf(m), cfg, plan, lowered, p);
  }

  lemma StrandedTrace<W>(world: World<W>, cfg: Config, plan: Plan, lowered: TcbVersion, w: W)
    requires plan.steps == TcbSteps(lowered) && After(world, cfg, plan, w, 4).status.Running?
    requires Perform(world, cfg, plan.steps[4], After(world, cfg, plan, w, 4)).1.None?
    ensures HostRan(plan.steps[1]) in Execute(world, cfg, plan, w).trace
    ensures HostRan(plan.steps[8]) !in Execute(world, cfg, plan, w).trace
  {
    hide Perform, After, StepsWith, Execute;
    TcbStepsShape(lowered);
    WasRunning(world, cfg, plan, w, 1, 4);
    HostTurn(world, cfg, plan, w, 1);
    InTrace(After(world, cfg, plan, w, 1).trace, HostRan(plan.steps[1]), Execute(world, cfg, plan, w).trace);
    ResetRunsIff(world, cfg, plan, lowered, w);
    assert !Reports(world, cfg, plan, w, 1, 8);
  }
}
