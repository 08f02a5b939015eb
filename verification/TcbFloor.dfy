/** The committed floor: when the config/commit test moves it without permission. */
module TcbFloor {
  import opened Models
  import opened VmProfiles
  import opened Runner
  import opened Executor
  import opened TcbVersions
  import opened SnphostTcb
  import opened Platforms
  import TcbSafety

  // ── The condition, on the platform before the run ───────────────

  /** The gate would accept this report: Committed and Current print alike. */
  predicate Accepted(m: Machine, r: Tcbs) {
    FieldsMatch(Show(r.committed, m.printsNone), Show(r.current, m.printsNone))
  }

  /** Nothing to advance, or no acceptable gate report lying in the artifact directory
      from an earlier run. */
  predicate SafeToRun(m: Machine, p: Platform) {
    || p.fw.committed == p.fw.current
    || GATE_REPORT !in p.artifacts
    || !Accepted(m, p.artifacts[GATE_REPORT])
  }

  // ── The invariant ───────────────────────────────────────────────

  predicate SameFloor(r: Tcbs, fw: Tcbs) {
    r.current == fw.current && r.committed == fw.committed
  }

  /** With `gate`: every report that could reach the gate tells the truth about the
      floor, or the gate refuses it.  The guest's files count only while one is alive. */
  predicate Guarded(m: Machine, p: Platform, gate: bool, alive: bool) {
    && WellFormed(p.fw)
    && (gate && p.fw.committed != p.fw.current ==>
          && (alive ==> forall f | f in p.guestFiles :: SameFloor(p.guestFiles[f], p.fw))
          && (GATE_REPORT in p.artifacts ==>
                SameFloor(p.artifacts[GATE_REPORT], p.fw) || !Accepted(m, p.artifacts[GATE_REPORT])))
  }

  predicate Steady(m: Machine, gate: bool, alive: bool, p: Platform, p': Platform) {
    Guarded(m, p', gate, alive) && KeepsFloor(p, p')
  }

  lemma FreshStaysGuarded(m: Machine, gate: bool, p: Platform, p': Platform)
    requires Guarded(m, p, gate, true) && p'.fw == p.fw && p'.artifacts == p.artifacts
    requires OnlyFresh(p.fw, p.guestFiles, p'.guestFiles)
    ensures Steady(m, gate, true, p, p')
  {
  }

  lemma HostSteady(m: Machine, gate: bool, alive: bool, p: Platform, command: string)
    requires Honest(m) && Guarded(m, p, gate, alive) && IsPlanCommand(command)
    ensures Steady(m, gate, alive, p, m.host(p, command).0)
  {
    var p' := m.host(p, command).0;
    assert KeepsFloor(p, p') && p'.artifacts == p.artifacts && p'.guestFiles == p.guestFiles;
  }

  lemma LaunchSteady(m: Machine, gate: bool, p: Platform, v: VMProfile)
    requires Honest(m) && Guarded(m, p, gate, false)
    ensures Steady(m, gate, true, p, m.launch(p, v).0)
  {
    var p' := m.launch(p, v).0;
    assert p'.fw == p.fw && p'.artifacts == p.artifacts && p'.guestFiles == map[];
  }

  lemma StopSteady(m: Machine, gate: bool, p: Platform, l: Launch)
    requires Honest(m) && Guarded(m, p, gate, true)
    ensures Steady(m, gate, true, p, m.stop(p, l).0)
  {
    FreshStaysGuarded(m, gate, p, m.stop(p, l).0);
  }

  lemma GuestSteady(m: Machine, gate: bool, p: Platform, command: string)
    requires Honest(m) && Guarded(m, p, gate, true)
    ensures Steady(m, gate, true, p, m.guest(p, command).0)
  {
    FreshStaysGuarded(m, gate, p, m.guest(p, command).0);
  }

  lemma PullSteady(m: Machine, gate: bool, p: Platform, src: string, dest: string)
    requires Honest(m) && Guarded(m, p, gate, true)
    ensures Steady(m, gate, true, p, m.pull(p, src, dest).0)
  {
    var p' := m.pull(p, src, dest).0;
    assert PullsHonestly(p, src, dest, p');
  }

  lemma JournalSteady(m: Machine, gate: bool, p: Platform, v: VMProfile)
    requires Honest(m) && Guarded(m, p, gate, true)
    ensures Steady(m, gate, true, p, m.journal(p, v).0)
  {
    var p' := m.journal(p, v).0;
    assert p'.fw == p.fw && p'.artifacts == p.artifacts && p'.guestFiles == p.guestFiles;
  }

  // ── One step of any plan, other than the commit ─────────────────

  lemma LaunchingSteady(m: Machine, gate: bool, v: VMProfile, r: Run<Platform>)
    requires Honest(m) && Guarded(m, r.world, gate, false)
    ensures Steady(m, gate, true, r.world, Launching(WorldOf(m), v, r).0.world)
  {
    LaunchSteady(m, gate, r.world, v);
  }

  lemma TalkingSteady(m: Machine, gate: bool, step: Step, r: Run<Platform>)
    requires Honest(m) && Guarded(m, r.world, gate, true) && r.launch.Some?
    requires step.action.Guest? || step.action.GuestPull?
    ensures Steady(m, gate, true, r.world, TalkToGuest(WorldOf(m), step, r).0.world)
  {
    if step.action.Guest? {
      GuestSteady(m, gate, r.world, step.action.guestCommand);
    } else {
      PullSteady(m, gate, r.world, step.action.guestSrc, step.action.hostDest);
    }
  }

  lemma GuestStepSteady(m: Machine, gate: bool, step: Step, r: Run<Platform>)
    requires Honest(m) && Guarded(m, r.world, gate, r.launch.Some?)
    requires step.action.Guest? || step.action.GuestPull?
    ensures var r' := PerformGuest(WorldOf(m), step, r).0; Steady(m, gate, r'.launch.Some?, r.world, r'.world)
  {
    if r.profile.Some? {
      if r.launch.Some? {
        TalkingSteady(m, gate, step, r);
      } else {
        LaunchingSteady(m, gate, r.profile.value, r);
        var (r', o) := Launching(WorldOf(m), r.profile.value, r);
        if o.Started? {
          TalkingSteady(m, gate, step, r');
        }
      }
    }
  }

  lemma StopStepSteady(m: Machine, gate: bool, cfg: Config, step: Step, r: Run<Platform>)
    requires Honest(m) && Guarded(m, r.world, gate, r.launch.Some?)
    ensures var r' := PerformStop(WorldOf(m), cfg, step, r).0; Steady(m, gate, r'.launch.Some?, r.world, r'.world)
  {
    if r.launch.Some? {
      var p := if cfg.debug then m.journal(r.world, r.launch.value.profile).0 else r.world;
      if cfg.debug {
        JournalSteady(m, gate, r.world, r.launch.value.profile);
      }
      StopSteady(m, gate, p, r.launch.value);
    }
  }

  lemma LaunchStepSteady(m: Machine, gate: bool, cfg: Config, step: Step, r: Run<Platform>)
    requires Honest(m) && Guarded(m, r.world, gate, r.launch.Some?) && step.action.VmLaunch?
    ensures var r' := PerformLaunch(WorldOf(m), cfg, step, r).0; Steady(m, gate, r'.launch.Some?, r.world, r'.world)
  {
    if r.profile.Some? && r.launch.None? {
      var v := ProfileToLaunch(cfg, step.action.guestId, r.profile.value, "guest");
      LaunchingSteady(m, gate, v, r.(profile := Some(v)));
    }
  }

  lemma CallSteady(m: Machine, gate: bool, cfg: Config, step: Step, r: Run<Platform>)
    requires Honest(m) && Guarded(m, r.world, gate, r.launch.Some?)
    requires step.action.Callable? && !Calls(m, step, CommitCurrentTcb)
    ensures var r' := PerformCall(WorldOf(m), cfg, step, r).0; Steady(m, gate, r'.launch.Some?, r.world, r'.world)
  {
    var p' := PerformCall(WorldOf(m), cfg, step, r).0.world;
    assert p'.fw == r.world.fw && p'.artifacts == r.world.artifacts && p'.guestFiles == r.world.guestFiles;
  }

  /** Any step but the commit, and a host command only if it is the plan's. */
  ghost predicate Harmless(m: Machine, step: Step) {
    !Calls(m, step, CommitCurrentTcb) && (step.action.Host? ==> IsPlanCommand(step.action.command))
  }

  lemma PerformSteady(m: Machine, gate: bool, cfg: Config, step: Step, r: Run<Platform>)
    requires Honest(m) && Guarded(m, r.world, gate, r.launch.Some?) && Harmless(m, step)
    ensures var r' := Perform(WorldOf(m), cfg, step, r).0; Steady(m, gate, r'.launch.Some?, r.world, r'.world)
  {
    match step.action {
      case VmLaunch(_) => LaunchStepSteady(m, gate, cfg, step, r);
      case VmStop => StopStepSteady(m, gate, cfg, step, r);
      case Host(command) => HostSteady(m, gate, r.launch.Some?, r.world, command);
      case Callable(_) => CallSteady(m, gate, cfg, step, r);
      case Guest(_) => GuestStepSteady(m, gate, step, r);
      case GuestPull(_, _) => GuestStepSteady(m, gate, step, r);
    }
  }

  lemma AdvanceKeepsWorld<W>(world: World<W>, cfg: Config, steps: seq<Step>, r: Run<W>)
    requires |r.results| < |steps|
    ensures var r', p := Advance(world, cfg, steps, r), Perform(world, cfg, steps[|r.results|], r).0;
      r'.world == p.world && r'.launch == p.launch
  {
  }

  lemma SteadyUntilCommit(m: Machine, gate: bool, cfg: Config, plan: Plan, p: Platform, n: nat)
    requires Honest(m) && Guarded(m, p, gate, false) && n <= |plan.steps|
    requires forall k | 0 <= k < n :: Harmless(m, plan.steps[k])
    ensures var r := After(WorldOf(m), cfg, plan, p, n); Steady(m, gate, r.launch.Some?, p, r.world)
  {
    forall r: Run<Platform> | Steady(m, gate, r.launch.Some?, p, r.world) && r.status.Running? && |r.results| < n
      ensures var r' := Advance(WorldOf(m), cfg, plan.steps, r); Steady(m, gate, r'.launch.Some?, p, r'.world)
    {
      PerformSteady(m, gate, cfg, plan.steps[|r.results|], r);
      AdvanceKeepsWorld(WorldOf(m), cfg, plan.steps, r);
    }
    TcbSafety.KeptUntil(WorldOf(m), cfg, plan, p, n, (r: Run<Platform>) => Steady(m, gate, r.launch.Some?, p, r.world));
  }

  // ── The gate ────────────────────────────────────────────────────

  /** Without permission, a gate that passes has seen Committed equal Current. */
  lemma GatePassMeansCommitted(m: Machine, p: Platform)
    requires Honest(m) && Guarded(m, p, true, false)
    requires HandlerVerdict(m, p, VerifyCommittedEqualsCurrent, false).Returned?
    requires HandlerVerdict(m, p, VerifyCommittedEqualsCurrent, false).code == 0
    ensures p.fw.committed == p.fw.current
  {
    var report := m.display(p, GATE_REPORT);
    assert HandlerVerdict(m, p, VerifyCommittedEqualsCurrent, false)
           == if GATE_REPORT !in p.artifacts then FAILED else CommitGate(false, report);
    assert report.Some? && report.value.code == 0;
    assert report.value.sections == ReportSections(p.artifacts[GATE_REPORT], m.printsNone);
    assert Accepted(m, p.artifacts[GATE_REPORT]);
    if p.fw.committed != p.fw.current {
      MatchShown(p.fw.committed, p.fw.current, m.printsNone);
    }
  }

  /** A setup step that leaves the test running has passed. */
  lemma SetupPassed<W>(world: World<W>, cfg: Config, steps: seq<Step>, r: Run<W>)
    requires |r.results| < |steps| && r.status.Running? && steps[|r.results|].severity == Setup
    requires Advance(world, cfg, steps, r).status.Running?
    ensures var sr := Perform(world, cfg, steps[|r.results|], r).1; sr.Some? && sr.value.result == Pass
  {
  }

  predicate IsGate(m: Machine, step: Step) {
    step.severity == Setup && step.expected == OK && Calls(m, step, VerifyCommittedEqualsCurrent)
  }

  /** What the proof needs of the plan's last two steps. */
  ghost predicate EndsInGateAndCommit(m: Machine, steps: seq<Step>) {
    && |steps| == 17 && IsGate(m, steps[15]) && Calls(m, steps[16], CommitCurrentTcb)
    && forall n | 0 <= n < 16 :: Harmless(m, steps[n])
  }

  lemma PlanEnds(m: Machine, lowered: TcbVersion)
    requires IsTestModule(m)
    ensures EndsInGateAndCommit(m, TcbSteps(lowered))
  {
    hide Calls;
    PlanCalls(m, lowered);
    HostCommandsOfPlan(CommandsFor(lowered));
    assert IsPlanCommand(ConfigSet(lowered, 0));
  }

  lemma HostCommandsOfPlan(c: Commands)
    ensures forall n | 0 <= n < 17 && StepsWith(c)[n].action.Host? ::
              StepsWith(c)[n].action.command in [c.show, c.set', c.reset]
  {
    hide Name;
  }

  lemma GateTurn(m: Machine, cfg: Config, steps: seq<Step>, r: Run<Platform>)
    requires Honest(m) && Guarded(m, r.world, true, false) && !cfg.allowHostChanges
    requires |r.results| < |steps| && r.status.Running?
    requires IsGate(m, steps[|r.results|])
    requires Advance(WorldOf(m), cfg, steps, r).status.Running?
    ensures r.world.fw.committed == r.world.fw.current
  {
    SetupPassed(WorldOf(m), cfg, steps, r);
    var step := steps[|r.results|];
    GateVerdict(m, cfg, step, r);
    GatePassMeansCommitted(m, r.world);
  }

  lemma GateVerdict(m: Machine, cfg: Config, step: Step, r: Run<Platform>)
    requires Calls(m, step, VerifyCommittedEqualsCurrent)
    ensures PerformCall(WorldOf(m), cfg, step, r).1
            == CallResult(step, HandlerVerdict(m, r.world, VerifyCommittedEqualsCurrent, cfg.allowHostChanges))
  {
  }

  /** Committing moves the floor to Current or not at all. */
  lemma CommitTurn(m: Machine, cfg: Config, steps: seq<Step>, r: Run<Platform>)
    requires Honest(m) && |r.results| < |steps| && Calls(m, steps[|r.results|], CommitCurrentTcb)
    requires r.world.fw.committed == r.world.fw.current
    ensures KeepsFloor(r.world, Advance(WorldOf(m), cfg, steps, r).world)
  {
    var p' := m.commit(r.world).0;
    assert p'.fw.current == r.world.fw.current && p'.fw.committed in {r.world.fw.committed, r.world.fw.current};
    AdvanceKeepsWorld(WorldOf(m), cfg, steps, r);
  }

  lemma FinishKeepsFloor(m: Machine, r: Run<Platform>)
    requires Honest(m)
    ensures KeepsFloor(r.world, Finish(WorldOf(m), r).world)
  {
    if r.launch.Some? {
      assert m.stop(r.world, r.launch.value).0.fw == r.world.fw;
    }
  }

  lemma FloorAfterPlan(m: Machine, cfg: Config, plan: Plan, p: Platform)
    requires Honest(m) && Guarded(m, p, true, false) && !cfg.allowHostChanges && EndsInGateAndCommit(m, plan.steps)
    ensures KeepsFloor(p, After(WorldOf(m), cfg, plan, p, 17).world)
  {
    SteadyUntilCommit(m, true, cfg, plan, p, 15);
    SteadyUntilCommit(m, true, cfg, plan, p, 16);
    var r15, r16 := After(WorldOf(m), cfg, plan, p, 15), After(WorldOf(m), cfg, plan, p, 16);
    if r16.status.Running? {
      TcbSafety.WasRunning(WorldOf(m), cfg, plan, p, 15, 16);
      TcbSafety.WasRunning(WorldOf(m), cfg, plan, p, 16, 16);
      GateTurn(m, cfg, plan.steps, r15);
      CommitTurn(m, cfg, plan.steps, r16);
    } else {
      StaysPut(WorldOf(m), cfg, plan, p, 16, 17);
    }
  }

  /** Without `--allow-host-changes`, on any honest machine, whatever fails or raises,
      the test leaves the committed floor where it was, provided the platform was safe
      to run on. */
  lemma FloorIsKept(m: Machine, cfg: Config, plan: Plan, lowered: TcbVersion, p: Platform)
    requires Honest(m) && WellFormed(p.fw)
    requires !cfg.allowHostChanges && plan.steps == TcbSteps(lowered) && IsTestModule(m)
    requires SafeToRun(m, p)
    ensures KeepsFloor(p, Execute(WorldOf(m), cfg, plan, p).world)
  {
    PlanEnds(m, lowered);
    FloorAfterPlan(m, cfg, plan, p);
    FinishKeepsFloor(m, After(WorldOf(m), cfg, plan, p, 17));
  }

  // ── The condition is exact ──────────────────────────────────────

  const ALL_HANDLERS := [VerifyDiffer, VerifyMatch, VerifyGuestReportLowered, VerifyLoweredReportSignature,
                         VerifyGuestReportRestored, VerifyCommittedEqualsCurrent, CommitCurrentTcb]

  function Attribute(name: string): Option<Handler> {
    Lookup(ALL_HANDLERS, name)
  }

  function Lookup(handlers: seq<Handler>, name: string): Option<Handler> {
    if handlers == [] then None
    else if Name(handlers[0]) == name then Some(handlers[0])
    else Lookup(handlers[1..], name)
  }

  lemma {:induction false} LookupFinds(handlers: seq<Handler>, name: string)
    ensures var found := Lookup(handlers, name);
      if found.Some? then found.value in handlers && Name(found.value) == name
      else forall h | h in handlers :: Name(h) != name
  {
    if handlers != [] {
      LookupFinds(handlers[1..], name);
    }
  }

  /** A machine whose guest never answers; everything else works. */
  function DeafMachine(printsNone: bool): Machine {
    Machine(
      (name: string) => Attribute(name),
      (c: string) => OtherTool,
      (c: string) => None,
      (p: Platform, c: string) => (p, HostExited(0, "", "")),
      (p: Platform, v: VMProfile) => (p.(guestFiles := map[]), Started(true, "")),
      (p: Platform, l: Launch) => (p, Stopped),
      (p: Platform, c: string) => (p, GuestVsock("")),
      (p: Platform, src: string, dest: string) => (p, PullVsock("")),
      (p: Platform, v: VMProfile) => (p, JournalRead),
      (p: Platform) => Some(ToolOutput(0, ShowSections(p.fw, printsNone))),
      (p: Platform, f: string) =>
        if f in p.artifacts then Some(ToolOutput(0, ReportSections(p.artifacts[f], printsNone)))
        else Some(ToolOutput(1, map[])),
      (p: Platform) => FAILED,
      (p: Platform) => (p.(fw := p.fw.(committed := p.fw.current)), Some(0)),
      printsNone)
  }

  /** What matters of such a machine. */
  ghost predicate DeafGuestSide(m: Machine) {
    && (forall p, v :: m.launch(p, v) == (p.(guestFiles := map[]), Started(true, "")))
    && (forall p, l :: m.stop(p, l) == (p, Stopped))
    && (forall p, c :: m.guest(p, c) == (p, GuestVsock("")))
    && (forall p, src, dest :: m.pull(p, src, dest) == (p, PullVsock("")))
    && (forall p, v :: m.journal(p, v) == (p, JournalRead))
  }

  ghost predicate DeafHostSide(m: Machine) {
    && (forall p, c :: m.host(p, c) == (p, HostExited(0, "", "")))
    && (forall p :: m.showTcb(p) == Some(ToolOutput(0, ShowSections(p.fw, m.printsNone))))
    && (forall p, f :: m.display(p, f) == DisplayOf(p, f, m.printsNone))
    && (forall p :: m.signature(p) == FAILED)
    && (forall p :: m.commit(p) == (p.(fw := p.fw.(committed := p.fw.current)), Some(0)))
  }

  ghost predicate Deaf(m: Machine) {
    DeafGuestSide(m) && DeafHostSide(m)
  }

  function DisplayOf(p: Platform, f: string, printsNone: bool): Option<ToolOutput> {
    if f in p.artifacts then Some(ToolOutput(0, ReportSections(p.artifacts[f], printsNone)))
    else Some(ToolOutput(1, map[]))
  }

  lemma AllAreListed(h: Handler)
    ensures h in ALL_HANDLERS
  {
    var all := ALL_HANDLERS;
    assert h == all[0] || h == all[1] || h == all[2] || h == all[3] || h == all[4] || h == all[5] || h == all[6];
  }

  /** Looking names up in the list of all handlers is what a test module does. */
  lemma AttributeIsTestModule(m: Machine)
    requires forall name :: m.attribute(name) == Attribute(name)
    ensures IsTestModule(m)
  {
    hide Lookup, Name;
    var all := ALL_HANDLERS;
    forall name ensures m.attribute(name).Some? ==> name == Name(m.attribute(name).value) {
      LookupFinds(all, name);
    }
    forall h ensures m.attribute(Name(h)) == Some(h) {
      LookupFinds(all, Name(h));
      AllAreListed(h);
      NamesDiffer(h, Lookup(all, Name(h)).value);
    }
  }

  lemma DeafMachineIsDeaf(printsNone: bool)
    ensures Deaf(DeafMachine(printsNone)) && IsTestModule(DeafMachine(printsNone))
  {
    AttributeIsTestModule(DeafMachine(printsNone));
  }

  lemma DeafGuestSideIsHonest(m: Machine)
    requires DeafGuestSide(m)
    ensures HonestGuest(m) && HonestPull(m)
  {
    forall p, l ensures m.stop(p, l).0 == p {
    }
    forall p, c ensures m.guest(p, c).0 == p {
    }
    forall p, src, dest ensures m.pull(p, src, dest).0 == p {
    }
  }

  lemma DeafHostSideIsHonest(m: Machine)
    requires DeafHostSide(m)
    ensures HonestHost(m) && HonestOutput(m) && HonestCommit(m)
  {
  }

  lemma DeafIsHonest(m: Machine)
    requires Deaf(m)
    ensures Honest(m)
  {
    DeafGuestSideIsHonest(m);
    DeafHostSideIsHonest(m);
  }

  predicate Unmoved(p: Platform, p': Platform) {
    p'.fw == p.fw && p'.artifacts == p.artifacts
  }

  lemma DeafTalk(m: Machine, step: Step, r: Run<Platform>)
    requires Deaf(m) && (step.action.Guest? || step.action.GuestPull?) && r.launch.Some?
    ensures var (r', sr) := TalkToGuest(WorldOf(m), step, r); sr.Some? && Unmoved(r.world, r'.world)
  {
  }

  lemma DeafGuest(m: Machine, step: Step, r: Run<Platform>)
    requires Deaf(m) && (step.action.Guest? || step.action.GuestPull?)
    ensures var (r', sr) := PerformGuest(WorldOf(m), step, r); sr.Some? && Unmoved(r.world, r'.world)
  {
    if r.profile.Some? {
      if r.launch.Some? {
        DeafTalk(m, step, r);
      } else {
        DeafTalk(m, step, Launching(WorldOf(m), r.profile.value, r).0);
      }
    }
  }

  lemma HandlersReport(m: Machine, p: Platform, handler: Handler, allow: bool)
    requires handler != CommitCurrentTcb && m.signature(p) == FAILED
    ensures !HandlerVerdict(m, p, handler, allow).CallEscapes?
  {
  }

  lemma DeafSignature(m: Machine, p: Platform)
    requires Deaf(m)
    ensures m.signature(p) == FAILED
  {
  }

  lemma DeafCall(m: Machine, cfg: Config, step: Step, r: Run<Platform>)
    requires Deaf(m) && step.action.Callable? && !Calls(m, step, CommitCurrentTcb)
    ensures var (r', sr) := PerformCall(WorldOf(m), cfg, step, r); sr.Some? && Unmoved(r.world, r'.world)
  {
    hide Deaf, HandlerVerdict;
    DeafSignature(m, r.world);
    if m.attribute(step.action.handler).Some? {
      HandlersReport(m, r.world, m.attribute(step.action.handler).value, cfg.allowHostChanges);
    }
  }

  lemma DeafLaunch(m: Machine, cfg: Config, step: Step, r: Run<Platform>)
    requires Deaf(m) && step.action.VmLaunch?
    ensures var (r', sr) := PerformLaunch(WorldOf(m), cfg, step, r); sr.Some? && Unmoved(r.world, r'.world)
  {
  }

  lemma DeafStops(m: Machine, p: Platform, l: Launch)
    requires Deaf(m)
    ensures m.stop(p, l) == (p, Stopped) && m.journal(p, l.profile) == (p, JournalRead)
  {
  }

  lemma DeafStop(m: Machine, cfg: Config, step: Step, r: Run<Platform>)
    requires Deaf(m)
    ensures var (r', sr) := PerformStop(WorldOf(m), cfg, step, r); sr.Some? && Unmoved(r.world, r'.world)
  {
    hide Deaf;
    if r.launch.Some? {
      DeafStops(m, r.world, r.launch.value);
    }
  }

  lemma DeafHost(m: Machine, cfg: Config, step: Step, r: Run<Platform>)
    requires Deaf(m) && step.action.Host?
    ensures var (r', sr) := Perform(WorldOf(m), cfg, step, r); sr.Some? && Unmoved(r.world, r'.world)
  {
    assert m.host(r.world, step.action.command) == (r.world, HostExited(0, "", ""));
  }

  lemma DeafPerform(m: Machine, cfg: Config, step: Step, r: Run<Platform>)
    requires Deaf(m) && !Calls(m, step, CommitCurrentTcb)
    ensures var (r', sr) := Perform(WorldOf(m), cfg, step, r); sr.Some? && Unmoved(r.world, r'.world)
  {
    hide Deaf;
    match step.action {
      case Guest(_) => DeafGuest(m, step, r);
      case GuestPull(_, _) => DeafGuest(m, step, r);
      case Callable(_) => DeafCall(m, cfg, step, r);
      case VmLaunch(_) => DeafLaunch(m, cfg, step, r);
      case VmStop => DeafStop(m, cfg, step, r);
      case Host(_) => DeafHost(m, cfg, step, r);
    }
  }

  predicate Deafly(p: Platform, r: Run<Platform>) {
    !r.status.Escaped? && Unmoved(p, r.world)
  }

  lemma DeafAdvance(m: Machine, cfg: Config, steps: seq<Step>, p: Platform, r: Run<Platform>)
    requires Deaf(m) && |r.results| < |steps| && !Calls(m, steps[|r.results|], CommitCurrentTcb)
    requires r.status.Running? && Deafly(p, r)
    ensures Deafly(p, Advance(WorldOf(m), cfg, steps, r))
  {
    DeafPerform(m, cfg, steps[|r.results|], r);
  }

  lemma DeafRun(m: Machine, cfg: Config, plan: Plan, p: Platform, n: nat)
    requires Deaf(m) && n <= |plan.steps|
    requires forall k | 0 <= k < n :: !Calls(m, plan.steps[k], CommitCurrentTcb)
    ensures Deafly(p, After(WorldOf(m), cfg, plan, p, n))
  {
    forall r | Deafly(p, r) && r.status.Running? && |r.results| < n
      ensures Deafly(p, Advance(WorldOf(m), cfg, plan.steps, r))
    {
      DeafAdvance(m, cfg, plan.steps, p, r);
    }
    TcbSafety.KeptUntil(WorldOf(m), cfg, plan, p, n, (r: Run<Platform>) => Deafly(p, r));
  }

  lemma DeafFirstStep(m: Machine, cfg: Config, steps: seq<Step>, r: Run<Platform>)
    requires Deaf(m) && |r.results| < |steps| && r.status.Running?
    requires steps[|r.results|].action.Host? && steps[|r.results|].expected == OK
    ensures Advance(WorldOf(m), cfg, steps, r).status.Running?
  {
    assert m.host(r.world, steps[|r.results|].action.command).1 == HostExited(0, "", "");
  }

  /** A step whose result is a pass leaves the test running. */
  lemma PassKeepsRunning<W>(world: World<W>, cfg: Config, steps: seq<Step>, r: Run<W>)
    requires |r.results| < |steps| && r.status.Running?
    requires var sr := Perform(world, cfg, steps[|r.results|], r).1; sr.Some? && sr.value.result == Pass
    ensures Advance(world, cfg, steps, r).status.Running?
  {
  }

  lemma GateOnSections(current: Fields, committed: Fields, reported: Fields, allow: bool)
    requires FieldsMatch(committed, current)
    ensures CommitGate(allow, Some(ToolOutput(0, map[CurrentTcb := current, CommittedTcb := committed,
                                                     ReportedTcb := reported])))
            == PASSED
  {
  }

  lemma GateReads(m: Machine, p: Platform, allow: bool, current: Fields, committed: Fields, reported: Fields)
    requires GATE_REPORT in p.artifacts && FieldsMatch(committed, current)
    requires m.display(p, GATE_REPORT)
             == Some(ToolOutput(0, map[CurrentTcb := current, CommittedTcb := committed, ReportedTcb := reported]))
    ensures HandlerVerdict(m, p, VerifyCommittedEqualsCurrent, allow) == PASSED
  {
    GateOnSections(current, committed, reported, allow);
  }

  /** A readable report whose two values print alike gets through the gate. */
  lemma GateOnReport(m: Machine, p: Platform, r: Tcbs, allow: bool)
    requires GATE_REPORT in p.artifacts && Accepted(m, r)
    requires m.display(p, GATE_REPORT) == Some(ToolOutput(0, ReportSections(r, m.printsNone)))
    ensures HandlerVerdict(m, p, VerifyCommittedEqualsCurrent, allow) == PASSED
  {
    GateReads(m, p, allow, Show(r.current, m.printsNone), Show(r.committed, m.printsNone),
              Show(r.reported, m.printsNone));
  }

  lemma GateAdvances(m: Machine, cfg: Config, steps: seq<Step>, r: Run<Platform>)
    requires |r.results| < |steps| && r.status.Running? && IsGate(m, steps[|r.results|])
    requires HandlerVerdict(m, r.world, VerifyCommittedEqualsCurrent, cfg.allowHostChanges) == PASSED
    ensures Advance(WorldOf(m), cfg, steps, r).status.Running?
  {
    GateVerdict(m, cfg, steps[|r.results|], r);
    PassKeepsRunning(WorldOf(m), cfg, steps, r);
  }

  lemma DeafGate(m: Machine, cfg: Config, steps: seq<Step>, r: Run<Platform>)
    requires Deaf(m) && |r.results| < |steps| && r.status.Running? && IsGate(m, steps[|r.results|])
    requires GATE_REPORT in r.world.artifacts && Accepted(m, r.world.artifacts[GATE_REPORT])
    ensures Advance(WorldOf(m), cfg, steps, r).status.Running?
  {
    assert HandlerVerdict(m, r.world, VerifyCommittedEqualsCurrent, cfg.allowHostChanges) == PASSED by {
      assert m.display(r.world, GATE_REPORT) == DisplayOf(r.world, GATE_REPORT, m.printsNone);
      GateOnReport(m, r.world, r.world.artifacts[GATE_REPORT], cfg.allowHostChanges);
    }
    GateAdvances(m, cfg, steps, r);
  }

  lemma DeafCommits(m: Machine, p: Platform)
    requires Deaf(m)
    ensures m.commit(p).0.fw.committed == p.fw.current
  {
  }

  lemma DeafCommit(m: Machine, cfg: Config, steps: seq<Step>, r: Run<Platform>)
    requires Deaf(m) && |r.results| < |steps| && Calls(m, steps[|r.results|], CommitCurrentTcb)
    ensures Advance(WorldOf(m), cfg, steps, r).world.fw.committed == r.world.fw.current
  {
    hide Deaf, Advance;
    DeafCommits(m, r.world);
    AdvanceKeepsWorld(WorldOf(m), cfg, steps, r);
  }

  lemma DeafReachesCommit(m: Machine, cfg: Config, plan: Plan, p: Platform)
    requires Deaf(m) && EndsInGateAndCommit(m, plan.steps) && !SafeToRun(m, p)
    requires TcbSafety.NoSetup(plan.steps, 1, 15)
    requires plan.steps[0].action.Host? && plan.steps[0].expected == OK
    ensures var r := After(WorldOf(m), cfg, plan, p, 16); r.status.Running? && Deafly(p, r)
  {
    hide Advance, Deaf;
    DeafFirstStep(m, cfg, plan.steps, After(WorldOf(m), cfg, plan, p, 0));
    TcbSafety.RunsOn(WorldOf(m), cfg, plan, p, 1, 15);
    DeafRun(m, cfg, plan, p, 15);
    DeafGate(m, cfg, plan.steps, After(WorldOf(m), cfg, plan, p, 15));
    DeafRun(m, cfg, plan, p, 16);
  }

  lemma DeafAdvancesFloor(m: Machine, cfg: Config, plan: Plan, lowered: TcbVersion, p: Platform)
    requires Deaf(m) && IsTestModule(m) && plan.steps == TcbSteps(lowered) && !SafeToRun(m, p)
    ensures Execute(WorldOf(m), cfg, plan, p).world.fw.committed == p.fw.current != p.fw.committed
  {
    hide Advance, Deaf, StepsWith;
    DeafIsHonest(m);
    PlanEnds(m, lowered);
    TcbSafety.TcbStepsShape(lowered);
    DeafReachesCommit(m, cfg, plan, p);
    TcbSafety.WasRunning(WorldOf(m), cfg, plan, p, 16, 16);
    DeafCommit(m, cfg, plan.steps, After(WorldOf(m), cfg, plan, p, 16));
    FinishKeepsFloor(m, After(WorldOf(m), cfg, plan, p, 17));
  }

  /** If the platform was not safe to run on, then on the honest machine whose guest
      does not answer the test, without permission or with it, advances the floor: the
      stale report is never overwritten. */
  lemma StaleReportMovesFloor(printsNone: bool, cfg: Config, plan: Plan, lowered: TcbVersion, p: Platform)
    requires plan.steps == TcbSteps(lowered) && !SafeToRun(DeafMachine(printsNone), p)
    ensures var m := DeafMachine(printsNone);
      && Honest(m) && IsTestModule(m)
      && Execute(WorldOf(m), cfg, plan, p).world.fw.committed == p.fw.current != p.fw.committed
  {
    hide Deaf, Honest, StepsWith, SafeToRun, Execute;
    DeafMachineIsDeaf(printsNone);
    DeafIsHonest(DeafMachine(printsNone));
    DeafAdvancesFloor(DeafMachine(printsNone), cfg, plan, lowered, p);
  }

  /** The test keeps the floor without permission on this machine, if it is an honest
      one with the tools' way of printing. */
  ghost predicate FloorKeptOn(m: Machine, printsNone: bool, cfg: Config, plan: Plan, p: Platform) {
    Honest(m) && IsTestModule(m) && m.printsNone == printsNone ==>
      KeepsFloor(p, Execute(WorldOf(m), cfg, plan, p).world)
  }

  /** Over all honest machines: the floor is kept exactly if the platform is safe to
      run on, which can be seen before the run. */
  lemma FloorIsKeptIff(printsNone: bool, cfg: Config, plan: Plan, lowered: TcbVersion, p: Platform)
    requires WellFormed(p.fw)
    requires !cfg.allowHostChanges && plan.steps == TcbSteps(lowered)
    ensures (forall m: Machine :: FloorKeptOn(m, printsNone, cfg, plan, p)) <==> SafeToRun(DeafMachine(printsNone), p)
  {
    hide Honest, IsTestModule, StepsWith, Execute;
    var deaf := DeafMachine(printsNone);
    if SafeToRun(deaf, p) {
      forall m: Machine ensures FloorKeptOn(m, printsNone, cfg, plan, p) {
        if Honest(m) && IsTestModule(m) && m.printsNone == printsNone {
          FloorIsKept(m, cfg, plan, lowered, p);
        }
      }
    } else {
      StaleReportMovesFloor(printsNone, cfg, plan, lowered, p);
      assert !FloorKeptOn(deaf, printsNone, cfg, plan, p);
    }
  }
}
