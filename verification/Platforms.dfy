/** The host under the config/commit test: firmware TCB values, the artifact
    directory, the running guest's files, and the tools that touch them. */
module Platforms {
  import opened Models
  import opened Texts
  import opened VmProfiles
  import opened Runner
  import opened Executor
  import opened TcbVersions
  import opened SnphostTcb

  /** The platform-wide values; an attestation report carries a copy of all three. */
  datatype Tcbs = Tcbs(current: TcbVersion, committed: TcbVersion, reported: TcbVersion)

  /** `seed` is whatever else the outcome of a step may depend on. */
  datatype Platform = Platform(fw: Tcbs, artifacts: map<string, Tcbs>, guestFiles: map<string, Tcbs>, seed: nat)

  datatype SectionName = ReportedTcb | PlatformTcb | CurrentTcb | CommittedTcb

  /** A finished `snphost show tcb` or `snpguest display report`, its text parsed. */
  datatype ToolOutput = ToolOutput(code: int, sections: map<SectionName, Fields>)

  /** The test module's handlers. */
  datatype Handler =
    | VerifyDiffer | VerifyMatch | VerifyGuestReportLowered | VerifyLoweredReportSignature
    | VerifyGuestReportRestored | VerifyCommittedEqualsCurrent | CommitCurrentTcb

  /** What a host command asks for. */
  datatype HostTool = SetReported(t: TcbVersion) | ResetReported | OtherTool

  /** Every tool as a function of the platform; None is a tool that could not be run.
      `attribute` looks a handler up by name in the test module; `tool` and `reportFile`
      are how the host's and the guest's shell read a command line. */
  datatype Machine = Machine(
    attribute: string -> Option<Handler>,
    tool: string -> HostTool,
    reportFile: string -> Option<string>,
    host: (Platform, string) -> (Platform, HostOutcome),
    launch: (Platform, VMProfile) -> (Platform, LaunchOutcome),
    stop: (Platform, Launch) -> (Platform, StopOutcome),
    guest: (Platform, string) -> (Platform, GuestOutcome),
    pull: (Platform, string, string) -> (Platform, PullOutcome),
    journal: (Platform, VMProfile) -> (Platform, JournalOutcome),
    showTcb: Platform -> Option<ToolOutput>,
    display: (Platform, string) -> Option<ToolOutput>,
    signature: Platform -> CallVerdict,
    commit: Platform -> (Platform, Option<int>),
    printsNone: bool)

  // ── The handlers ────────────────────────────────────────────────

  /** A tool that cannot be run raises, and so does an except branch that reads a name
      no one bound: the runner reports both as an error. */
  const RAISED := Broken("handler raised")
  const PASSED := Returned(0, "", "")
  const FAILED := Returned(1, "", "FAIL")

  function SectionOf(out: ToolOutput, name: SectionName): Fields {
    if name in out.sections then out.sections[name] else map[]
  }

  /** `_verify_result`.  The branch for a mismatch after reset names a variable that
      is not bound, so it raises instead of returning 1. */
  function VerifyResult(expectMatch: bool, show: Option<ToolOutput>): CallVerdict {
    if show.None? then RAISED
    else if show.value.code != 0 then FAILED
    else
      var same := FieldsMatch(SectionOf(show.value, ReportedTcb), SectionOf(show.value, PlatformTcb));
      if expectMatch && !same then RAISED
      else if !expectMatch && same then FAILED
      else PASSED
  }

  /** Readable output with these sections; otherwise the reader raises. */
  predicate Readable(out: Option<ToolOutput>, names: set<SectionName>) {
    out.Some? && out.value.code == 0 && names <= out.value.sections.Keys
  }

  const REPORT_SECTIONS := {CurrentTcb, CommittedTcb, ReportedTcb}
  const HOST_SECTIONS := {ReportedTcb, PlatformTcb}

  /** `_verify_guest_tcb`, on a report that exists. */
  function VerifyGuestTcb(expectMatch: bool, report: Option<ToolOutput>, show: Option<ToolOutput>): CallVerdict {
    if !Readable(report, REPORT_SECTIONS) || !Readable(show, HOST_SECTIONS) then RAISED
    else
      var guest, host := report.value.sections, show.value.sections;
      if && FieldsMatch(guest[ReportedTcb], host[ReportedTcb])
         && FieldsMatch(guest[CurrentTcb], host[PlatformTcb])
         && FieldsMatch(host[ReportedTcb], host[PlatformTcb]) == expectMatch
      then PASSED else FAILED
  }

  /** `verify_committed_equals_current`, on a report that exists. */
  function CommitGate(allowHostChanges: bool, report: Option<ToolOutput>): CallVerdict {
    if !Readable(report, REPORT_SECTIONS) then RAISED
    else if FieldsMatch(report.value.sections[CommittedTcb], report.value.sections[CurrentTcb]) then PASSED
    else if allowHostChanges then PASSED
    else FAILED
  }

  const LOWERED_REPORT := "report.bin"
  const GATE_REPORT := "report_after_reset.bin"

  function HandlerVerdict(m: Machine, p: Platform, handler: Handler, allowHostChanges: bool): CallVerdict
    requires handler != CommitCurrentTcb
  {
    match handler
    case VerifyDiffer => VerifyResult(false, m.showTcb(p))
    case VerifyMatch => VerifyResult(true, m.showTcb(p))
    case VerifyGuestReportLowered =>
      if LOWERED_REPORT !in p.artifacts then FAILED
      else VerifyGuestTcb(false, m.display(p, LOWERED_REPORT), m.showTcb(p))
    case VerifyGuestReportRestored =>
      if GATE_REPORT !in p.artifacts then FAILED
      else VerifyGuestTcb(true, m.display(p, GATE_REPORT), m.showTcb(p))
    case VerifyLoweredReportSignature =>
      if LOWERED_REPORT !in p.artifacts then FAILED else m.signature(p)
    case VerifyCommittedEqualsCurrent =>
      if GATE_REPORT !in p.artifacts then FAILED
      else CommitGate(allowHostChanges, m.display(p, GATE_REPORT))
  }

  /** Only the commit handler changes the platform. */
  function Handle(m: Machine, p: Platform, name: string, allowHostChanges: bool): (Platform, CallVerdict) {
    match m.attribute(name)
    case None => (p, Broken("Test module has no such attribute"))
    case Some(handler) =>
      if handler == CommitCurrentTcb then
        var (p', code) := m.commit(p);
        (p', if code.None? then RAISED else if code.value == 0 then PASSED else FAILED)
      else (p.(seed := p.seed + 1), HandlerVerdict(m, p, handler, allowHostChanges))
  }

  function WorldOf(m: Machine): World<Platform> {
    World(
      (p: Platform, s: Step) => if s.action.Host? then m.host(p, s.action.command) else (p, HostEscapes),
      (p: Platform, v: VMProfile) => m.launch(p, v),
      (p: Platform, l: Launch) => m.stop(p, l),
      (p: Platform, v: VMProfile, s: Step) =>
        if s.action.Guest? then m.guest(p, s.action.guestCommand) else (p, GuestEscapes),
      (p: Platform, v: VMProfile, s: Step) =>
        if s.action.GuestPull? then m.pull(p, s.action.guestSrc, s.action.hostDest) else (p, PullEscapes),
      (p: Platform, v: VMProfile) => m.journal(p, v),
      (p: Platform, h: string, v: View) =>
        var (p', verdict) := Handle(m, p, h, v.allowHostChanges);
        (p', CallOutcome(v.profile, verdict)),
      (p: Platform) => "guest")
  }

  // ── The plan ────────────────────────────────────────────────────

  const OK := ExitCode(0)
  /** The commands of the plan, by their words. */
  const SHOW_COMMAND := Join(["snphost", "show", "tcb"], " ")
  const RESET_COMMAND := Join(["snphost", "config", "reset"], " ")

  function ReportCommand(file: string, request: string): string {
    Join(["snpguest", "report", file, request, "--random"], " ")
  }

  /** The command lines of one plan. */
  datatype Commands = Commands(show: string, set': string, reset: string, loweredReport: string, gateReport: string)

  function CommandsFor(lowered: TcbVersion): Commands {
    Commands(SHOW_COMMAND, ConfigSet(lowered, 0), RESET_COMMAND,
             ReportCommand(LOWERED_REPORT, "request.bin"), ReportCommand(GATE_REPORT, "request_after_reset.bin"))
  }

  /** `steps()` once the lowered version is known. */
  function TcbSteps(lowered: TcbVersion): (s: seq<Step>)
    ensures |s| == 17
  {
    StepsWith(CommandsFor(lowered))
  }

  function StepsWith(c: Commands): (s: seq<Step>)
    ensures |s| == 17
  {
    [ Step("show-tcb", Setup, Host(c.show), OK),
      Step("config-set-lower", Required, Host(c.set'), OK),
      Step("verify-differ after config-set-lower", Required, Callable(Name(VerifyDiffer)), OK),
      Step("Launch SEV-SNP guest", Required, VmLaunch("tcb-config-lowered-vm"), OK),
      Step("guest-report-after-lower", Required, Guest(c.loweredReport), OK),
      Step("pull-report-after-lower", Required, GuestPull(LOWERED_REPORT, LOWERED_REPORT), OK),
      Step("verify-guest-report-lowered", Required, Callable(Name(VerifyGuestReportLowered)), OK),
      Step("verify-lowered-report-signature", Required, Callable(Name(VerifyLoweredReportSignature)), OK),
      Step("config-reset", Required, Host(c.reset), OK),
      Step("verify-match after config-reset", Required, Callable(Name(VerifyMatch)), OK),
      Step("guest-report-after-reset", Required, Guest(c.gateReport), OK),
      Step("pull-report-after-reset", Required, GuestPull(GATE_REPORT, GATE_REPORT), OK),
      Step("verify-guest-report-restored", Required, Callable(Name(VerifyGuestReportRestored)), OK),
      Step("Stop VM", Info, VmStop, OK),
      Step("teardown-config-reset", Info, Host(c.reset), OK),
      Step("verify-committed-equals-current", Setup, Callable(Name(VerifyCommittedEqualsCurrent)), OK),
      Step("commit-current-tcb", Required, Callable(Name(CommitCurrentTcb)), OK) ]
  }

  /** Loading the module runs `steps()`, which reads the Platform section first.  None
      is a plan that does not load, because the tool, the section, a field or anything
      to lower is missing. */
  function LoadTcbPlan(m: Machine, p: Platform, declared: VMProfile): Option<Plan> {
    var out := m.showTcb(p);
    if !Readable(out, HOST_SECTIONS) then None
    else
      var t := ReadFields(out.value.sections[PlatformTcb]);
      if t.None? then None else PlanFor(t.value, declared)
  }

  /** The plan for a platform's TCB, if there is anything to lower. */
  function PlanFor(t: TcbVersion, declared: VMProfile): Option<Plan> {
    if Lower(t).None? then None else Some(Plan(TcbSteps(Lower(t).value), declared, true))
  }

  /** `steps()` as it is written, on local variables. */
  method LoadSteps(m: Machine, p: Platform, declared: VMProfile) returns (plan: Option<Plan>)
    ensures plan == LoadTcbPlan(m, p, declared)
  {
    hide TcbSteps, ReadFields, Lower, LowersFirst;
    var out := m.showTcb(p);
    if !Readable(out, HOST_SECTIONS) {
      return None;
    }
    var t := ReadFields(out.value.sections[PlatformTcb]);
    if t.None? {
      return None;
    }
    var bl, tee, snp, ucode := t.value.bootloader, t.value.tee, t.value.snp, t.value.microcode;
    var raised, loBl, loTee, loSnp, loUcode := LowerOneField(bl, tee, snp, ucode, t.value.fmc);
    var lowered := TcbVersion(loBl, loTee, loSnp, loUcode, t.value.fmc);
    LoweringIsDetermined(t.value, lowered);
    if raised {
      return None;
    }
    plan := Some(Plan(TcbSteps(lowered), declared, true));
  }

  /** The names the test module defines. */
  function Name(h: Handler): string {
    match h
    case VerifyDiffer => "verify_differ"
    case VerifyMatch => "verify_match"
    case VerifyGuestReportLowered => "verify_guest_report_lowered"
    case VerifyLoweredReportSignature => "verify_lowered_report_signature"
    case VerifyGuestReportRestored => "verify_guest_report_restored"
    case VerifyCommittedEqualsCurrent => "verify_committed_equals_current"
    case CommitCurrentTcb => "commit_current_tcb"
  }

  lemma NamesDiffer(h: Handler, k: Handler)
    requires Name(h) == Name(k)
    ensures h == k
  {
  }

  /** The machine's module has these handlers and no others. */
  ghost predicate IsTestModule(m: Machine) {
    && (forall h :: m.attribute(Name(h)) == Some(h))
    && (forall name :: m.attribute(name).Some? ==> name == Name(m.attribute(name).value))
  }

  predicate Calls(m: Machine, step: Step, handler: Handler) {
    step.action.Callable? && m.attribute(step.action.handler) == Some(handler)
  }

  /** Which handler each callable step of the plan calls. */
  predicate CallsAsPlanned(m: Machine, s: seq<Step>) {
    && |s| == 17
    && Calls(m, s[2], VerifyDiffer) && Calls(m, s[6], VerifyGuestReportLowered)
    && Calls(m, s[7], VerifyLoweredReportSignature) && Calls(m, s[9], VerifyMatch)
    && Calls(m, s[12], VerifyGuestReportRestored) && Calls(m, s[15], VerifyCommittedEqualsCurrent)
    && Calls(m, s[16], CommitCurrentTcb)
    && (forall n | 0 <= n < 17 && n != 16 :: !Calls(m, s[n], CommitCurrentTcb))
  }

  lemma PlanCalls(m: Machine, lowered: TcbVersion)
    requires IsTestModule(m)
    ensures CallsAsPlanned(m, TcbSteps(lowered))
  {
    StepsCall(m, CommandsFor(lowered));
  }

  lemma StepsCall(m: Machine, c: Commands)
    requires IsTestModule(m)
    ensures CallsAsPlanned(m, StepsWith(c))
  {
    hide Name;
    assert m.attribute(Name(VerifyDiffer)) == Some(VerifyDiffer);
    assert m.attribute(Name(VerifyMatch)) == Some(VerifyMatch);
    assert m.attribute(Name(VerifyGuestReportLowered)) == Some(VerifyGuestReportLowered);
    assert m.attribute(Name(VerifyLoweredReportSignature)) == Some(VerifyLoweredReportSignature);
    assert m.attribute(Name(VerifyGuestReportRestored)) == Some(VerifyGuestReportRestored);
    assert m.attribute(Name(VerifyCommittedEqualsCurrent)) == Some(VerifyCommittedEqualsCurrent);
    assert m.attribute(Name(CommitCurrentTcb)) == Some(CommitCurrentTcb);
  }

  /** The steps that are not calls, and which steps do not count. */
  predicate ActsAsWritten(s: seq<Step>, c: Commands) {
    && |s| == 17 && (forall n | 0 <= n < 17 :: s[n].expected == OK)
    && s[0].action == Host(c.show) && s[1].action == Host(c.set') && s[3].action.VmLaunch?
    && s[4].action == Guest(c.loweredReport) && s[5].action == GuestPull(LOWERED_REPORT, LOWERED_REPORT)
    && s[8].action == Host(c.reset)
    && s[10].action == Guest(c.gateReport) && s[11].action == GuestPull(GATE_REPORT, GATE_REPORT)
    && s[13].action.VmStop? && s[14].action == Host(c.reset)
    && (forall n | 0 <= n < 17 :: s[n].severity == Info <==> n == 13 || n == 14)
  }

  lemma StepsAct(c: Commands)
    ensures ActsAsWritten(StepsWith(c), c)
  {
    hide Name;
  }

  predicate WellFormed(fw: Tcbs) {
    && Natural(fw.current) && Natural(fw.committed) && Natural(fw.reported)
    && (fw.current.fmc.Some? <==> fw.committed.fmc.Some?)
    && (fw.current.fmc.Some? <==> fw.reported.fmc.Some?)
  }

  predicate KeepsFloor(p: Platform, p': Platform) {
    p'.fw.current == p.fw.current && p'.fw.committed == p.fw.committed
  }

  /** Reports in the new map are old ones or carry the firmware's values of now. */
  predicate OnlyFresh(fw: Tcbs, before: map<string, Tcbs>, after: map<string, Tcbs>) {
    forall f | f in after :: (f in before && after[f] == before[f]) || after[f] == fw
  }

  function ShowSections(fw: Tcbs, printsNone: bool): map<SectionName, Fields> {
    map[ReportedTcb := Show(fw.reported, printsNone), PlatformTcb := Show(fw.current, printsNone)]
  }

  function ReportSections(r: Tcbs, printsNone: bool): map<SectionName, Fields> {
    map[CurrentTcb := Show(r.current, printsNone), CommittedTcb := Show(r.committed, printsNone),
        ReportedTcb := Show(r.reported, printsNone)]
  }

  predicate OnlyFirmware(p: Platform, p': Platform) {
    p'.artifacts == p.artifacts && p'.guestFiles == p.guestFiles
  }

  /** The host commands of the plan, whatever version it lowers to. */
  ghost predicate IsPlanCommand(command: string) {
    command == SHOW_COMMAND || command == RESET_COMMAND || exists t :: command == ConfigSet(t, 0)
  }

  ghost predicate HonestHost(m: Machine) {
    forall p, c | IsPlanCommand(c) :: var p' := m.host(p, c).0;
      KeepsFloor(p, p') && OnlyFirmware(p, p') && (WellFormed(p.fw) ==> WellFormed(p'.fw))
  }

  ghost predicate HonestGuest(m: Machine) {
    && (forall p, v :: var p' := m.launch(p, v).0;
          p'.fw == p.fw && p'.artifacts == p.artifacts && p'.guestFiles == map[])
    && (forall p, l :: var p' := m.stop(p, l).0;
          p'.fw == p.fw && p'.artifacts == p.artifacts && OnlyFresh(p.fw, p.guestFiles, p'.guestFiles))
    && (forall p, c :: var p' := m.guest(p, c).0;
          p'.fw == p.fw && p'.artifacts == p.artifacts && OnlyFresh(p.fw, p.guestFiles, p'.guestFiles))
    && (forall p, v :: var p' := m.journal(p, v).0; p'.fw == p.fw && OnlyFirmware(p, p'))
  }

  predicate PullsHonestly(p: Platform, src: string, dest: string, p': Platform) {
    && p'.fw == p.fw && p'.guestFiles == p.guestFiles
    && (p'.artifacts == p.artifacts
        || (src in p.guestFiles && p'.artifacts == p.artifacts[dest := p.guestFiles[src]]))
  }

  ghost predicate HonestPull(m: Machine) {
    forall p, src, dest :: PullsHonestly(p, src, dest, m.pull(p, src, dest).0)
  }

  ghost predicate HonestOutput(m: Machine) {
    && (forall p :: m.showTcb(p).Some? && m.showTcb(p).value.code == 0 ==>
          m.showTcb(p).value.sections == ShowSections(p.fw, m.printsNone))
    && (forall p, f :: m.display(p, f).Some? && m.display(p, f).value.code == 0 ==>
          f in p.artifacts && m.display(p, f).value.sections == ReportSections(p.artifacts[f], m.printsNone))
  }

  ghost predicate HonestCommit(m: Machine) {
    forall p :: var p' := m.commit(p).0;
      p'.fw.current == p.fw.current && p'.fw.committed in {p.fw.committed, p.fw.current}
  }

  /** Anything may fail in any way, and the plan's host commands may do anything to
      Reported.  But only the commit handler raises the floor, and no further than
      Current; a tool that exits 0 prints what is there; a new guest has no report
      files; a report made in the guest carries the firmware's values; a pull copies one
      file or nothing.  Nothing is asked of a host command that the plan does not have. */
  ghost predicate Honest(m: Machine) {
    HonestHost(m) && HonestGuest(m) && HonestPull(m) && HonestOutput(m) && HonestCommit(m)
  }
}
