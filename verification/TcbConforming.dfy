/** The config/commit test on firmware that obeys its commands. */
module TcbConforming {
  import opened Models
  import opened Texts
  import opened VmProfiles
  import opened Runner
  import opened Executor
  import opened TcbVersions
  import opened SnphostTcb
  import opened Platforms
  import opened TcbPass
  import TcbFloor

  // ── Obedient tools ──────────────────────────────────────────────

  function Understand(command: string): HostTool {
    match ParseConfigSet(command)
    case Some(t) => SetReported(t)
    case None => if command == RESET_COMMAND then ResetReported else OtherTool
  }

  /** SNP_CONFIG takes any version of the platform's kind up to the committed one. */
  predicate Settable(t: TcbVersion, fw: Tcbs) {
    Natural(t) && AtMost(t, fw.committed) && (t.fmc.Some? <==> fw.committed.fmc.Some?)
  }

  /** A reset goes back to Current. */
  function HostEffect(fw: Tcbs, tool: HostTool): Tcbs {
    match tool
    case SetReported(t) => if Settable(t, fw) then fw.(reported := t) else fw
    case ResetReported => fw.(reported := fw.current)
    case OtherTool => fw
  }

  function HostCode(fw: Tcbs, tool: HostTool): int {
    if tool.SetReported? && !Settable(tool.t, fw) then 1 else 0
  }

  /** The report file a `snpguest report FILE REQUEST --random` writes. */
  function ReportFile(command: string): Option<string> {
    var words := Split(command, ' ');
    if |words| == 5 && words[..2] == ["snpguest", "report"] then Some(words[2]) else None
  }

  /** SNP_COMMIT: with nothing to commit it changes nothing. */
  function CommitEffect(fw: Tcbs): Tcbs {
    if fw.committed == fw.current then fw else Tcbs(fw.current, fw.current, fw.current)
  }

  ghost predicate ReadsCommands(m: Machine) {
    (forall c :: m.tool(c) == Understand(c)) && (forall c :: m.reportFile(c) == ReportFile(c))
  }

  ghost predicate ObedientHost(m: Machine) {
    forall p, c :: var (p', o) := m.host(p, c);
      && p'.fw == HostEffect(p.fw, m.tool(c)) && OnlyFirmware(p, p')
      && o.HostExited? && o.code == HostCode(p.fw, m.tool(c))
  }

  ghost predicate ObedientVm(m: Machine) {
    && (forall p, v :: var (p', o) := m.launch(p, v);
          p'.fw == p.fw && p'.artifacts == p.artifacts && p'.guestFiles == map[] && o.Started? && o.ok)
    && (forall p, l :: var (p', o) := m.stop(p, l); p'.fw == p.fw && OnlyFirmware(p, p') && o.Stopped?)
    && (forall p, v :: var (p', o) := m.journal(p, v); p'.fw == p.fw && OnlyFirmware(p, p') && o.JournalRead?)
  }

  ghost predicate ObedientGuest(m: Machine) {
    && (forall p, c :: var (p', o) := m.guest(p, c);
          && p'.fw == p.fw && p'.artifacts == p.artifacts && o.GuestExited? && o.code == 0
          && p'.guestFiles
             == if m.reportFile(c).Some? then p.guestFiles[m.reportFile(c).value := p.fw] else p.guestFiles)
    && (forall p: Platform, src, dest | src in p.guestFiles :: var (p', o) := m.pull(p, src, dest);
          && p'.fw == p.fw && p'.guestFiles == p.guestFiles && o.Pulled?
          && p'.artifacts == p.artifacts[dest := p.guestFiles[src]])
  }

  ghost predicate ObedientTools(m: Machine) {
    && (forall p :: m.showTcb(p) == Some(ToolOutput(0, ShowSections(p.fw, m.printsNone))))
    && (forall p: Platform, f | f in p.artifacts ::
          m.display(p, f) == Some(ToolOutput(0, ReportSections(p.artifacts[f], m.printsNone))))
    && (forall p :: m.signature(p) == PASSED)
    && (forall p :: var (p', code) := m.commit(p);
          p'.fw == CommitEffect(p.fw) && OnlyFirmware(p, p') && code == Some(0))
  }

  ghost predicate Obedient(m: Machine) {
    ObedientHost(m) && ObedientVm(m) && ObedientGuest(m) && ObedientTools(m)
  }

  // ── The commands of the plan ────────────────────────────────────

  lemma SetUnderstood(lowered: TcbVersion)
    requires Natural(lowered)
    ensures Understand(ConfigSet(lowered, 0)) == SetReported(lowered)
  {
    ConfigSetIsUnderstood(lowered, 0);
  }

  lemma ResetUnderstood()
    ensures Understand(RESET_COMMAND) == ResetReported
  {
    assert ' ' !in "snphost" && ' ' !in "config" && ' ' !in "reset";
    SplitJoin(["snphost", "config", "reset"], ' ');
  }

  lemma ShowUnderstood()
    ensures Understand(SHOW_COMMAND) == OtherTool
  {
    assert ' ' !in "snphost" && ' ' !in "config" && ' ' !in "reset" && ' ' !in "show" && ' ' !in "tcb";
    SplitJoin(["snphost", "show", "tcb"], ' ');
    SplitJoin(["snphost", "config", "reset"], ' ');
    assert "config"[0] == 'c' && "show"[0] == 's';
  }

  lemma ReportCommandUnderstood(file: string, request: string)
    requires ' ' !in file && ' ' !in request
    ensures ReportFile(ReportCommand(file, request)) == Some(file)
  {
    assert ' ' !in "snpguest" && ' ' !in "report" && ' ' !in "--random";
    SplitJoin(["snpguest", "report", file, request, "--random"], ' ');
  }

  // ── One turn ────────────────────────────────────────────────────

  /** The run goes well so far: every result a pass, a guest running if told. */
  predicate Well(r: Run<Platform>, n: nat, running: bool) {
    && r.status.Running? && |r.results| == n && r.overall == Pass
    && (forall j | 0 <= j < n :: r.results[j].result == Pass)
    && r.profile.Some? && (r.launch.Some? <==> running) && (r.launch.Some? ==> r.launch.value.ok)
  }

  /** A good run, and what its platform holds. */
  datatype Stage = Stage(running: bool, fw: Tcbs, artifacts: map<string, Tcbs>, guestFiles: map<string, Tcbs>)

  predicate At(r: Run<Platform>, n: nat, s: Stage) {
    Well(r, n, s.running) && Holds(r.world, s)
  }

  predicate Holds(p: Platform, s: Stage) {
    p.fw == s.fw && p.artifacts == s.artifacts && p.guestFiles == s.guestFiles
  }

  /** The state of the run before turn n. */
  function Turn(m: Machine, cfg: Config, plan: Plan, p: Platform, n: nat): Run<Platform> {
    After(WorldOf(m), cfg, plan, p, n)
  }

  predicate AtTurnStart(m: Machine, cfg: Config, plan: Plan, p: Platform, n: nat, s: Stage) {
    n < |plan.steps| && plan.steps[n].expected == OK && At(Turn(m, cfg, plan, p, n), n, s)
  }

  lemma PassAppends(m: Machine, cfg: Config, steps: seq<Step>, r: Run<Platform>, s: Stage, s': Stage)
    requires |r.results| < |steps| && At(r, |r.results|, s)
    requires var (r', sr) := Perform(WorldOf(m), cfg, steps[|r.results|], r);
      && sr.Some? && sr.value.result == Pass && Holds(r'.world, s')
      && r'.profile.Some? && (r'.launch.Some? <==> s'.running) && (r'.launch.Some? ==> r'.launch.value.ok)
    ensures At(Advance(WorldOf(m), cfg, steps, r), |r.results| + 1, s')
  {
  }

  lemma NextTurn(m: Machine, cfg: Config, plan: Plan, p: Platform, n: nat, s: Stage, s': Stage)
    requires AtTurnStart(m, cfg, plan, p, n, s)
    requires At(Advance(WorldOf(m), cfg, plan.steps, Turn(m, cfg, plan, p, n)), n + 1, s')
    ensures At(Turn(m, cfg, plan, p, n + 1), n + 1, s')
  {
  }

  lemma HostTurn(m: Machine, cfg: Config, plan: Plan, p: Platform, n: nat, s: Stage, tool: HostTool)
    requires ObedientHost(m) && AtTurnStart(m, cfg, plan, p, n, s)
    requires IsTool(m, plan.steps[n], tool) && HostCode(s.fw, tool) == 0
    ensures At(Turn(m, cfg, plan, p, n + 1), n + 1, s.(fw := HostEffect(s.fw, tool)))
  {
    var r := Turn(m, cfg, plan, p, n);
    var (p', o) := m.host(r.world, plan.steps[n].action.command);
    assert o.HostExited? && o.code == 0;
    PassAppends(m, cfg, plan.steps, r, s, s.(fw := HostEffect(s.fw, tool)));
    NextTurn(m, cfg, plan, p, n, s, s.(fw := HostEffect(s.fw, tool)));
  }

  lemma CallTurn(m: Machine, cfg: Config, plan: Plan, p: Platform, n: nat, s: Stage, handler: Handler)
    requires AtTurnStart(m, cfg, plan, p, n, s)
    requires Calls(m, plan.steps[n], handler) && handler != CommitCurrentTcb
    requires HandlerVerdict(m, Turn(m, cfg, plan, p, n).world, handler, cfg.allowHostChanges) == PASSED
    ensures At(Turn(m, cfg, plan, p, n + 1), n + 1, s)
  {
    hide HandlerVerdict, Advance;
    PassAppends(m, cfg, plan.steps, Turn(m, cfg, plan, p, n), s, s);
    NextTurn(m, cfg, plan, p, n, s, s);
  }

  lemma HostCheckTurn(m: Machine, cfg: Config, plan: Plan, p: Platform, n: nat, s: Stage, expectMatch: bool)
    requires ObedientTools(m) && AtTurnStart(m, cfg, plan, p, n, s)
    requires Calls(m, plan.steps[n], if expectMatch then VerifyMatch else VerifyDiffer)
    requires WellFormed(s.fw) && (s.fw.reported == s.fw.current <==> expectMatch)
    ensures At(Turn(m, cfg, plan, p, n + 1), n + 1, s)
  {
    HostCheckPasses(m, Turn(m, cfg, plan, p, n).world, expectMatch);
    CallTurn(m, cfg, plan, p, n, s, if expectMatch then VerifyMatch else VerifyDiffer);
  }

  lemma GuestHandlerPasses(m: Machine, p: Platform, allow: bool, expectMatch: bool)
    requires ObedientTools(m) && WellFormed(p.fw) && (p.fw.reported == p.fw.current <==> expectMatch)
    requires HasReport(p.artifacts, if expectMatch then GATE_REPORT else LOWERED_REPORT, p.fw)
    ensures HandlerVerdict(m, p, if expectMatch then VerifyGuestReportRestored else VerifyGuestReportLowered, allow)
            == PASSED
  {
    hide ObedientTools, WellFormed, VerifyGuestTcb;
    GuestCheckPasses(m, p, if expectMatch then GATE_REPORT else LOWERED_REPORT, expectMatch);
  }

  lemma GuestCheckTurn(m: Machine, cfg: Config, plan: Plan, p: Platform, n: nat, s: Stage, expectMatch: bool)
    requires ObedientTools(m) && AtTurnStart(m, cfg, plan, p, n, s)
    requires Calls(m, plan.steps[n], if expectMatch then VerifyGuestReportRestored else VerifyGuestReportLowered)
    requires HasReport(s.artifacts, if expectMatch then GATE_REPORT else LOWERED_REPORT, s.fw)
    requires WellFormed(s.fw) && (s.fw.reported == s.fw.current <==> expectMatch)
    ensures At(Turn(m, cfg, plan, p, n + 1), n + 1, s)
  {
    hide HandlerVerdict, ObedientTools, WellFormed, Turn, Well;
    GuestHandlerPasses(m, Turn(m, cfg, plan, p, n).world, cfg.allowHostChanges, expectMatch);
    CallTurn(m, cfg, plan, p, n, s, if expectMatch then VerifyGuestReportRestored else VerifyGuestReportLowered);
  }

  lemma SignaturePasses(m: Machine, p: Platform, allow: bool)
    requires ObedientTools(m) && LOWERED_REPORT in p.artifacts
    ensures HandlerVerdict(m, p, VerifyLoweredReportSignature, allow) == PASSED
  {
    assert m.signature(p) == PASSED;
  }

  lemma SignatureTurn(m: Machine, cfg: Config, plan: Plan, p: Platform, n: nat, s: Stage)
    requires ObedientTools(m) && AtTurnStart(m, cfg, plan, p, n, s)
    requires Calls(m, plan.steps[n], VerifyLoweredReportSignature) && HasReport(s.artifacts, LOWERED_REPORT, s.fw)
    ensures At(Turn(m, cfg, plan, p, n + 1), n + 1, s)
  {
    hide HandlerVerdict, ObedientTools, Turn, Well;
    SignaturePasses(m, Turn(m, cfg, plan, p, n).world, cfg.allowHostChanges);
    CallTurn(m, cfg, plan, p, n, s, VerifyLoweredReportSignature);
  }

  lemma GateTurn(m: Machine, cfg: Config, plan: Plan, p: Platform, n: nat, s: Stage)
    requires ObedientTools(m) && AtTurnStart(m, cfg, plan, p, n, s)
    requires Calls(m, plan.steps[n], VerifyCommittedEqualsCurrent) && HasReport(s.artifacts, GATE_REPORT, s.fw)
    requires WellFormed(s.fw) && s.fw.committed == s.fw.current
    ensures At(Turn(m, cfg, plan, p, n + 1), n + 1, s)
  {
    GatePasses(m, Turn(m, cfg, plan, p, n).world, cfg.allowHostChanges);
    CallTurn(m, cfg, plan, p, n, s, VerifyCommittedEqualsCurrent);
  }

  lemma LaunchTurn(m: Machine, cfg: Config, plan: Plan, p: Platform, n: nat, s: Stage)
    requires ObedientVm(m) && AtTurnStart(m, cfg, plan, p, n, s) && !s.running && plan.steps[n].action.VmLaunch?
    ensures At(Turn(m, cfg, plan, p, n + 1), n + 1, s.(running := true, guestFiles := map[]))
  {
    var r := Turn(m, cfg, plan, p, n);
    var v := ProfileToLaunch(cfg, plan.steps[n].action.guestId, r.profile.value, "guest");
    var (p', o) := m.launch(r.world, v);
    assert o.Started? && o.ok && p'.guestFiles == map[];
    PassAppends(m, cfg, plan.steps, r, s, s.(running := true, guestFiles := map[]));
    NextTurn(m, cfg, plan, p, n, s, s.(running := true, guestFiles := map[]));
  }

  lemma GuestTurn(m: Machine, cfg: Config, plan: Plan, p: Platform, n: nat, s: Stage, file: string)
    requires ObedientGuest(m) && AtTurnStart(m, cfg, plan, p, n, s) && s.running && IsReport(m, plan.steps[n], file)
    ensures At(Turn(m, cfg, plan, p, n + 1), n + 1, s.(guestFiles := s.guestFiles[file := s.fw]))
  {
    var r := Turn(m, cfg, plan, p, n);
    var (p', o) := m.guest(r.world, plan.steps[n].action.guestCommand);
    assert o.GuestExited? && o.code == 0;
    PassAppends(m, cfg, plan.steps, r, s, s.(guestFiles := s.guestFiles[file := s.fw]));
    NextTurn(m, cfg, plan, p, n, s, s.(guestFiles := s.guestFiles[file := s.fw]));
  }

  lemma PullTurn(m: Machine, cfg: Config, plan: Plan, p: Platform, n: nat, s: Stage, file: string)
    requires ObedientGuest(m) && AtTurnStart(m, cfg, plan, p, n, s) && s.running
    requires plan.steps[n].action == GuestPull(file, file) && file in s.guestFiles
    ensures At(Turn(m, cfg, plan, p, n + 1), n + 1, s.(artifacts := s.artifacts[file := s.guestFiles[file]]))
  {
    var r := Turn(m, cfg, plan, p, n);
    var (p', o) := m.pull(r.world, file, file);
    assert o.Pulled?;
    PassAppends(m, cfg, plan.steps, r, s, s.(artifacts := s.artifacts[file := s.guestFiles[file]]));
    NextTurn(m, cfg, plan, p, n, s, s.(artifacts := s.artifacts[file := s.guestFiles[file]]));
  }

  lemma StopTurn(m: Machine, cfg: Config, plan: Plan, p: Platform, n: nat, s: Stage)
    requires ObedientVm(m) && AtTurnStart(m, cfg, plan, p, n, s) && s.running && plan.steps[n].action.VmStop?
    ensures At(Turn(m, cfg, plan, p, n + 1), n + 1, s.(running := false))
  {
    var r := Turn(m, cfg, plan, p, n);
    var (p1, journal) := m.journal(r.world, r.launch.value.profile);
    var q := if cfg.debug then p1 else r.world;
    assert !journal.JournalEscapes? && q.fw == r.world.fw && OnlyFirmware(r.world, q);
    var (p2, o) := m.stop(q, r.launch.value);
    assert o.Stopped? && p2.fw == q.fw && OnlyFirmware(q, p2);
    PassAppends(m, cfg, plan.steps, r, s, s.(running := false));
    NextTurn(m, cfg, plan, p, n, s, s.(running := false));
  }

  lemma CommitTurn(m: Machine, cfg: Config, plan: Plan, p: Platform, n: nat, s: Stage)
    requires ObedientTools(m) && AtTurnStart(m, cfg, plan, p, n, s)
    requires Calls(m, plan.steps[n], CommitCurrentTcb) && s.fw.committed == s.fw.current
    ensures At(Turn(m, cfg, plan, p, n + 1), n + 1, s)
  {
    var r := Turn(m, cfg, plan, p, n);
    var (p', code) := m.commit(r.world);
    assert code == Some(0) && p'.fw == r.world.fw && OnlyFirmware(r.world, p');
    CommitPasses(m, cfg, plan.steps[n], r);
    PassAppends(m, cfg, plan.steps, r, s, s);
    NextTurn(m, cfg, plan, p, n, s, s);
  }

  lemma CommitPasses(m: Machine, cfg: Config, step: Step, r: Run<Platform>)
    requires Calls(m, step, CommitCurrentTcb) && step.expected == OK && m.commit(r.world).1 == Some(0)
    ensures var (r', sr) := Perform(WorldOf(m), cfg, step, r);
      && sr.Some? && sr.value.result == Pass && r'.world == m.commit(r.world).0
      && r'.profile == r.profile && r'.launch == r.launch
  {
  }

  // ── The handlers on obedient tools ──────────────────────────────

  lemma HostCheckPasses(m: Machine, p: Platform, expectMatch: bool)
    requires ObedientTools(m) && WellFormed(p.fw) && (p.fw.reported == p.fw.current <==> expectMatch)
    ensures VerifyResult(expectMatch, m.showTcb(p)) == PASSED
  {
    HostFieldsDecide(m, p);
    assert m.showTcb(p) == Some(ToolOutput(0, ShowSections(p.fw, m.printsNone)));
    VerifyOnSections(expectMatch, Show(p.fw.reported, m.printsNone), Show(p.fw.current, m.printsNone));
  }

  lemma GuestCheckPasses(m: Machine, p: Platform, file: string, expectMatch: bool)
    requires ObedientTools(m) && WellFormed(p.fw) && (p.fw.reported == p.fw.current <==> expectMatch)
    requires file in p.artifacts && p.artifacts[file] == p.fw
    ensures VerifyGuestTcb(expectMatch, m.display(p, file), m.showTcb(p)) == PASSED
  {
    HostFieldsDecide(m, p);
    var fw, none := p.fw, m.printsNone;
    assert m.showTcb(p) == Some(ToolOutput(0, ShowSections(fw, none)));
    assert m.display(p, file) == Some(ToolOutput(0, ReportSections(fw, none)));
    SelfMatch(fw.reported, none);
    SelfMatch(fw.current, none);
    GuestOnSections(expectMatch, Show(fw.current, none), Show(fw.committed, none), Show(fw.reported, none),
                    Show(fw.reported, none), Show(fw.current, none));
  }

  lemma SelfMatch(t: TcbVersion, none: bool)
    requires Natural(t)
    ensures FieldsMatch(Show(t, none), Show(t, none))
  {
    MatchShown(t, t, none);
  }

  lemma GatePasses(m: Machine, p: Platform, allow: bool)
    requires ObedientTools(m) && WellFormed(p.fw) && p.fw.committed == p.fw.current
    requires GATE_REPORT in p.artifacts && p.artifacts[GATE_REPORT] == p.fw
    ensures HandlerVerdict(m, p, VerifyCommittedEqualsCurrent, allow) == PASSED
  {
    SelfMatch(p.fw.current, m.printsNone);
    assert m.display(p, GATE_REPORT) == Some(ToolOutput(0, ReportSections(p.artifacts[GATE_REPORT], m.printsNone)));
    TcbFloor.GateOnReport(m, p, p.fw, allow);
  }

  // ── The whole plan ──────────────────────────────────────────────

  predicate IsTool(m: Machine, step: Step, tool: HostTool) {
    step.action.Host? && m.tool(step.action.command) == tool
  }

  predicate IsReport(m: Machine, step: Step, file: string) {
    step.action.Guest? && m.reportFile(step.action.guestCommand) == Some(file)
  }

  predicate HasReport(files: map<string, Tcbs>, name: string, fw: Tcbs) {
    name in files && files[name] == fw
  }

  /** The two parts, from which handler and which command each step has. */
  lemma PartsOf(m: Machine, plan: Plan, c: Commands, lowered: TcbVersion)
    requires ActsAsWritten(plan.steps, c) && CallsAsPlanned(m, plan.steps)
    requires m.tool(c.show) == OtherTool && m.tool(c.set') == SetReported(lowered) && m.tool(c.reset) == ResetReported
    requires m.reportFile(c.loweredReport) == Some(LOWERED_REPORT) && m.reportFile(c.gateReport) == Some(GATE_REPORT)
    ensures LoweringPart(m, plan, 0, lowered) && RestoringPart(m, plan, 8)
  {
  }

  lemma CommandsAreRead(m: Machine, lowered: TcbVersion)
    requires ReadsCommands(m) && Natural(lowered)
    ensures var c := CommandsFor(lowered);
      && m.tool(c.show) == OtherTool && m.tool(c.set') == SetReported(lowered) && m.tool(c.reset) == ResetReported
      && m.reportFile(c.loweredReport) == Some(LOWERED_REPORT) && m.reportFile(c.gateReport) == Some(GATE_REPORT)
  {
    hide Understand, ReportFile, Split, Join, ConfigSet, Decimal;
    SetUnderstood(lowered);
    ResetUnderstood();
    ShowUnderstood();
    assert ' ' !in LOWERED_REPORT && ' ' !in GATE_REPORT && ' ' !in "request.bin" && ' ' !in "request_after_reset.bin";
    ReportCommandUnderstood(LOWERED_REPORT, "request.bin");
    ReportCommandUnderstood(GATE_REPORT, "request_after_reset.bin");
  }

  lemma PlanHasParts(m: Machine, plan: Plan, lowered: TcbVersion)
    requires IsTestModule(m) && ReadsCommands(m) && Natural(lowered) && plan.steps == TcbSteps(lowered)
    ensures LoweringPart(m, plan, 0, lowered) && RestoringPart(m, plan, 8)
  {
    PlanCalls(m, lowered);
    CommandsAreRead(m, lowered);
    StepsAct(CommandsFor(lowered));
    PartsOf(m, plan, CommandsFor(lowered), lowered);
  }

  /** The plan from its step `o` on is a set, a check, a launch and a checked report. */
  predicate LoweringPart(m: Machine, plan: Plan, o: nat, lowered: TcbVersion) {
    && o + 8 <= |plan.steps| && (forall n | o <= n < o + 8 :: plan.steps[n].expected == OK)
    && IsTool(m, plan.steps[o], OtherTool) && IsTool(m, plan.steps[o + 1], SetReported(lowered))
    && Calls(m, plan.steps[o + 2], VerifyDiffer) && plan.steps[o + 3].action.VmLaunch?
    && IsReport(m, plan.steps[o + 4], LOWERED_REPORT)
    && plan.steps[o + 5].action == GuestPull(LOWERED_REPORT, LOWERED_REPORT)
    && Calls(m, plan.steps[o + 6], VerifyGuestReportLowered)
    && Calls(m, plan.steps[o + 7], VerifyLoweredReportSignature)
  }

  /** A reset, a check, a checked report, a stop, a reset, the gate and the commit. */
  predicate RestoringPart(m: Machine, plan: Plan, o: nat) {
    && o + 9 <= |plan.steps| && (forall n | o <= n < o + 9 :: plan.steps[n].expected == OK)
    && IsTool(m, plan.steps[o], ResetReported) && Calls(m, plan.steps[o + 1], VerifyMatch)
    && IsReport(m, plan.steps[o + 2], GATE_REPORT)
    && plan.steps[o + 3].action == GuestPull(GATE_REPORT, GATE_REPORT)
    && Calls(m, plan.steps[o + 4], VerifyGuestReportRestored) && plan.steps[o + 5].action.VmStop?
    && IsTool(m, plan.steps[o + 6], ResetReported)
    && Calls(m, plan.steps[o + 7], VerifyCommittedEqualsCurrent) && Calls(m, plan.steps[o + 8], CommitCurrentTcb)
  }

  lemma SetAndLaunch(m: Machine, cfg: Config, plan: Plan, lowered: TcbVersion, p: Platform, o: nat, s: Stage)
    requires ObedientHost(m) && ObedientVm(m) && ObedientTools(m)
    requires LoweringPart(m, plan, o, lowered) && At(Turn(m, cfg, plan, p, o), o, s) && !s.running
    requires AtMost(lowered, s.fw.committed) && WellFormed(s.fw.(reported := lowered)) && lowered != s.fw.current
    ensures At(Turn(m, cfg, plan, p, o + 4), o + 4, Lowered(s, lowered))
  {
    var s2 := s.(fw := s.fw.(reported := lowered));
    HostTurn(m, cfg, plan, p, o, s, OtherTool);
    HostTurn(m, cfg, plan, p, o + 1, s, SetReported(lowered));
    HostCheckTurn(m, cfg, plan, p, o + 2, s2, false);
    LaunchTurn(m, cfg, plan, p, o + 3, s2);
  }

  function Lowered(s: Stage, lowered: TcbVersion): Stage {
    s.(running := true, guestFiles := map[], fw := s.fw.(reported := lowered))
  }

  function Restored(s: Stage): Stage {
    s.(fw := s.fw.(reported := s.fw.current))
  }

  /** A report and its pull: the artifact then holds the firmware's values. */
  function WithReport(s: Stage, file: string): Stage {
    s.(guestFiles := s.guestFiles[file := s.fw], artifacts := s.artifacts[file := s.fw])
  }

  lemma ReportAndPull(m: Machine, cfg: Config, plan: Plan, p: Platform, n: nat, s: Stage, file: string)
    requires ObedientGuest(m) && AtTurnStart(m, cfg, plan, p, n, s) && s.running
    requires n + 1 < |plan.steps| && plan.steps[n + 1].expected == OK
    requires IsReport(m, plan.steps[n], file) && plan.steps[n + 1].action == GuestPull(file, file)
    ensures At(Turn(m, cfg, plan, p, n + 2), n + 2, WithReport(s, file))
  {
    GuestTurn(m, cfg, plan, p, n, s, file);
    PullTurn(m, cfg, plan, p, n + 1, s.(guestFiles := s.guestFiles[file := s.fw]), file);
  }

  lemma CheckLowered(m: Machine, cfg: Config, plan: Plan, lowered: TcbVersion, p: Platform, o: nat, s: Stage)
    requires ObedientTools(m) && LoweringPart(m, plan, o, lowered) && At(Turn(m, cfg, plan, p, o + 6), o + 6, s)
    requires HasReport(s.artifacts, LOWERED_REPORT, s.fw) && WellFormed(s.fw) && s.fw.reported != s.fw.current
    ensures At(Turn(m, cfg, plan, p, o + 8), o + 8, s)
  {
    GuestCheckTurn(m, cfg, plan, p, o + 6, s, false);
    SignatureTurn(m, cfg, plan, p, o + 7, s);
  }

  lemma LoweringGoesWell(m: Machine, cfg: Config, plan: Plan, lowered: TcbVersion, p: Platform, o: nat, s: Stage)
    requires Obedient(m) && LoweringPart(m, plan, o, lowered) && At(Turn(m, cfg, plan, p, o), o, s) && !s.running
    requires AtMost(lowered, s.fw.committed) && WellFormed(s.fw.(reported := lowered)) && lowered != s.fw.current
    ensures At(Turn(m, cfg, plan, p, o + 8), o + 8, WithReport(Lowered(s, lowered), LOWERED_REPORT))
  {
    SetAndLaunch(m, cfg, plan, lowered, p, o, s);
    ReportAndPull(m, cfg, plan, p, o + 4, Lowered(s, lowered), LOWERED_REPORT);
    CheckLowered(m, cfg, plan, lowered, p, o, WithReport(Lowered(s, lowered), LOWERED_REPORT));
  }

  lemma ResetAndCheck(m: Machine, cfg: Config, plan: Plan, p: Platform, o: nat, s: Stage)
    requires Obedient(m) && RestoringPart(m, plan, o) && At(Turn(m, cfg, plan, p, o), o, s) && WellFormed(s.fw)
    ensures At(Turn(m, cfg, plan, p, o + 2), o + 2, Restored(s))
  {
    HostTurn(m, cfg, plan, p, o, s, ResetReported);
    HostCheckTurn(m, cfg, plan, p, o + 1, Restored(s), true);
  }

  lemma CheckAndStop(m: Machine, cfg: Config, plan: Plan, p: Platform, o: nat, s: Stage)
    requires Obedient(m) && RestoringPart(m, plan, o) && At(Turn(m, cfg, plan, p, o + 4), o + 4, s) && s.running
    requires HasReport(s.artifacts, GATE_REPORT, s.fw) && WellFormed(s.fw) && s.fw.reported == s.fw.current
    ensures At(Turn(m, cfg, plan, p, o + 7), o + 7, s.(running := false))
  {
    GuestCheckTurn(m, cfg, plan, p, o + 4, s, true);
    StopTurn(m, cfg, plan, p, o + 5, s);
    HostTurn(m, cfg, plan, p, o + 6, s.(running := false), ResetReported);
  }

  lemma RestoringGoesWell(m: Machine, cfg: Config, plan: Plan, p: Platform, o: nat, s: Stage)
    requires Obedient(m) && RestoringPart(m, plan, o) && At(Turn(m, cfg, plan, p, o), o, s) && s.running
    requires WellFormed(s.fw) && s.fw.committed == s.fw.current
    ensures At(Turn(m, cfg, plan, p, o + 9), o + 9, WithReport(Restored(s), GATE_REPORT).(running := false))
  {
    var s4 := WithReport(Restored(s), GATE_REPORT);
    var s5 := s4.(running := false);
    ResetAndCheck(m, cfg, plan, p, o, s);
    ReportAndPull(m, cfg, plan, p, o + 2, Restored(s), GATE_REPORT);
    CheckAndStop(m, cfg, plan, p, o, s4);
    GateTurn(m, cfg, plan, p, o + 7, s5);
    CommitTurn(m, cfg, plan, p, o + 8, s5);
  }

  lemma PlanGoesWell(m: Machine, cfg: Config, plan: Plan, lowered: TcbVersion, p: Platform, o: nat, s: Stage)
    requires Obedient(m) && LoweringPart(m, plan, o, lowered) && RestoringPart(m, plan, o + 8)
    requires At(Turn(m, cfg, plan, p, o), o, s) && !s.running
    requires WellFormed(s.fw) && s.fw.committed == s.fw.current
    requires Natural(lowered) && AtMost(lowered, s.fw.current) && lowered != s.fw.current
    requires lowered.fmc == s.fw.current.fmc && o + 17 == |plan.steps|
    ensures Ends(Turn(m, cfg, plan, p, |plan.steps|), |plan.steps|, s.fw.(reported := s.fw.current))
  {
    LoweringGoesWell(m, cfg, plan, lowered, p, o, s);
    RestoringGoesWell(m, cfg, plan, p, o + 8, WithReport(Lowered(s, lowered), LOWERED_REPORT));
  }

  predicate Ends(r: Run<Platform>, n: nat, fw: Tcbs) {
    Well(r, n, false) && r.world.fw == fw
  }

  lemma LoadFrom(m: Machine, p: Platform, declared: VMProfile, reported: Fields, platform: Fields, t: TcbVersion)
    requires m.showTcb(p) == Some(ToolOutput(0, map[ReportedTcb := reported, PlatformTcb := platform]))
    requires ReadFields(platform) == Some(t)
    ensures LoadTcbPlan(m, p, declared) == PlanFor(t, declared)
  {
    hide PlanFor;
  }

  /** The plan is loaded, with the lowered version in it, exactly when the platform's
      core fields are not all zero. */
  lemma LoadedPlan(m: Machine, p: Platform, declared: VMProfile)
    requires ObedientTools(m) && WellFormed(p.fw)
    ensures LoadTcbPlan(m, p, declared) == PlanFor(p.fw.current, declared)
    ensures LoadTcbPlan(m, p, declared).Some? <==> CoreSum(p.fw.current) != 0
  {
    hide TcbSteps, LoadTcbPlan, FieldsMatch;
    var none := m.printsNone;
    assert m.showTcb(p) == Some(ToolOutput(0, ShowSections(p.fw, none)));
    ReadShown(p.fw.current, none);
    LoweringIsExact(p.fw.current, none);
    LoadFrom(m, p, declared, Show(p.fw.reported, none), Show(p.fw.current, none), p.fw.current);
  }

  lemma EndingWell(m: Machine, r: Run<Platform>, n: nat, fw: Tcbs)
    requires Ends(r, n, fw)
    ensures var end := Finish(WorldOf(m), r);
      && end.verdict == Completed(Pass) && |end.results| == n && end.world.fw == fw
      && forall j | 0 <= j < n :: end.results[j].result == Pass
  {
  }

  lemma StartingWell(m: Machine, cfg: Config, plan: Plan, p: Platform)
    requires plan.requiresVm
    ensures At(Turn(m, cfg, plan, p, 0), 0, Stage(false, p.fw, p.artifacts, p.guestFiles))
  {
  }

  lemma PassesFrom(m: Machine, cfg: Config, plan: Plan, lowered: TcbVersion, p: Platform)
    requires Obedient(m) && LoweringPart(m, plan, 0, lowered) && RestoringPart(m, plan, 8) && |plan.steps| == 17
    requires plan.requiresVm && WellFormed(p.fw) && p.fw.committed == p.fw.current
    requires Natural(lowered) && AtMost(lowered, p.fw.current) && lowered != p.fw.current
    requires lowered.fmc == p.fw.current.fmc
    ensures Ends(Turn(m, cfg, plan, p, |plan.steps|), |plan.steps|, p.fw.(reported := p.fw.current))
  {
    StartingWell(m, cfg, plan, p);
    PlanGoesWell(m, cfg, plan, lowered, p, 0, Stage(false, p.fw, p.artifacts, p.guestFiles));
  }

  /** On obedient tools, with Committed equal to Current and anything to lower, the plan
      the test loads lowers one field, every one of its seventeen steps passes, and the
      platform ends as it began but for Reported, which is back at Current. */
  lemma ObedientFirmwarePasses(m: Machine, cfg: Config, declared: VMProfile, p: Platform)
    requires Obedient(m) && IsTestModule(m) && ReadsCommands(m) && WellFormed(p.fw) && p.fw.committed == p.fw.current
    requires CoreSum(p.fw.current) != 0
    ensures LoadTcbPlan(m, p, declared).Some?
    ensures var end := Execute(WorldOf(m), cfg, LoadTcbPlan(m, p, declared).value, p);
      && end.verdict == Completed(Pass) && |end.results| == 17
      && (forall j | 0 <= j < 17 :: end.results[j].result == Pass)
      && end.world.fw == p.fw.(reported := p.fw.current)
  {
    hide ObedientHost, ObedientVm, ObedientGuest, ObedientTools, ReadsCommands, IsTestModule, StepsWith, After, Finish;
    LoadedPlan(m, p, declared);
    LoweringIsExact(p.fw.current, m.printsNone);
    var lowered := Lower(p.fw.current).value;
    var plan := Plan(TcbSteps(lowered), declared, true);
    PlanHasParts(m, plan, lowered);
    PassesFrom(m, cfg, plan, lowered, p);
    EndingWell(m, Turn(m, cfg, plan, p, |plan.steps|), |plan.steps|, p.fw.(reported := p.fw.current));
  }

  // ── Such machines exist ─────────────────────────────────────────

  /** The obedient machine, which is also an honest one. */
  function ObedientMachine(printsNone: bool): Machine {
    Machine(
      (name: string) => TcbFloor.Attribute(name),
      (c: string) => Understand(c),
      (c: string) => ReportFile(c),
      (p: Platform, c: string) => (p.(fw := HostEffect(p.fw, Understand(c))),
                                   HostExited(HostCode(p.fw, Understand(c)), "", "")),
      (p: Platform, v: VMProfile) => (p.(guestFiles := map[]), Started(true, "")),
      (p: Platform, l: Launch) => (p, Stopped),
      (p: Platform, c: string) =>
        (if ReportFile(c).Some? then p.(guestFiles := p.guestFiles[ReportFile(c).value := p.fw]) else p,
         GuestExited(0, "", "")),
      (p: Platform, src: string, dest: string) =>
        if src in p.guestFiles then (p.(artifacts := p.artifacts[dest := p.guestFiles[src]]), Pulled)
        else (p, PullVsock("")),
      (p: Platform, v: VMProfile) => (p, JournalRead),
      (p: Platform) => Some(ToolOutput(0, ShowSections(p.fw, printsNone))),
      (p: Platform, f: string) => TcbFloor.DisplayOf(p, f, printsNone),
      (p: Platform) => PASSED,
      (p: Platform) => (p.(fw := CommitEffect(p.fw)), Some(0)),
      printsNone)
  }

  lemma ObedientMachineIsObedient(printsNone: bool)
    ensures Obedient(ObedientMachine(printsNone)) && ReadsCommands(ObedientMachine(printsNone))
    ensures IsTestModule(ObedientMachine(printsNone))
  {
    hide ObedientHost, ObedientVm, ObedientGuest, ObedientTools, Understand, ReportFile;
    ObedientHostSide(printsNone);
    ObedientGuestSide(printsNone);
    TcbFloor.AttributeIsTestModule(ObedientMachine(printsNone));
  }

  lemma ObedientHostSide(printsNone: bool)
    ensures ObedientHost(ObedientMachine(printsNone)) && ObedientTools(ObedientMachine(printsNone))
  {
    hide Understand, ReportFile, HostEffect, HostCode, CommitEffect, ShowSections, ReportSections;
  }

  lemma ObedientGuestSide(printsNone: bool)
    ensures ObedientVm(ObedientMachine(printsNone)) && ObedientGuest(ObedientMachine(printsNone))
  {
    hide Understand, ReportFile, HostEffect, HostCode, CommitEffect, ShowSections, ReportSections;
  }

  lemma ObedientMachineIsHonest(printsNone: bool)
    ensures Honest(ObedientMachine(printsNone))
  {
    hide Understand, ReportFile, ShowSections, ReportSections;
    var m := ObedientMachine(printsNone);
    forall p: Platform, c ensures WellFormed(p.fw) ==> WellFormed(m.host(p, c).0.fw) {
      assert m.host(p, c).0.fw == HostEffect(p.fw, Understand(c));
    }
  }
}
