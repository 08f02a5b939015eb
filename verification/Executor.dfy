/** `execute_test` (sev_verify/cli.py): one test, step by step.

    Everything outside the harness is a `World`: functions from the state of the
    world, of any type W, to an outcome and a next state.  A statement about every
    world is a statement about every run.  `After` is the run as a state machine;
    the method `ExecuteTest` is the loop the harness has, proved to compute it. */
module Executor {
  import opened Models
  import opened VmProfiles
  import opened Runner

  // ── The outside world ───────────────────────────────────────────

  /** What a handler can read of its StepContext. */
  datatype View = View(profile: Option<VMProfile>, launch: Option<Launch>,
                       results: seq<StepResult>, allowHostChanges: bool)

  /** A handler may replace `ctx.profile`; `profile` is its value afterwards. */
  datatype CallOutcome = CallOutcome(profile: Option<VMProfile>, verdict: CallVerdict)

  datatype World<!W> = World(
    host: (W, Step) -> (W, HostOutcome),
    launch: (W, VMProfile) -> (W, LaunchOutcome),
    stop: (W, Launch) -> (W, StopOutcome),
    guest: (W, VMProfile, Step) -> (W, GuestOutcome),
    pull: (W, VMProfile, Step) -> (W, PullOutcome),
    journal: (W, VMProfile) -> (W, JournalOutcome),
    call: (W, string, View) -> (W, CallOutcome),
    freshId: W -> string)

  datatype Config = Config(guestPath: string, qemu: Option<string>, ovmf: Option<string>,
                           artifactDir: string, allowHostChanges: bool, debug: bool)

  /** The module's `steps()` and its declared profile (VMProfile's defaults where it
      declares none); only tests of guest or mixed scope get a profile. */
  datatype Plan = Plan(steps: seq<Step>, declared: VMProfile, requiresVm: bool)

  // ── A run ───────────────────────────────────────────────────────

  /** What the harness did to the world, in order.  A launch is known by its
      position in this history, which is the `handle` the later events carry. */
  datatype Event =
    | HostRan(hostStep: Step)
    | Launched(profile: VMProfile, outcome: LaunchOutcome)
    | StopTried(handle: nat, stopped: bool)
    | GuestTalked(handle: nat, profile: VMProfile, guestStep: Step)
    | HandlerCalled(handler: string, view: View, after: Option<VMProfile>)

  datatype Status = Running | Halted | Escaped

  /** `launch`, `profile`, `results` and `overall` are the loop's variables. */
  datatype Run<W> = Run(
    world: W, profile: Option<VMProfile>, launch: Option<Launch>,
    results: seq<StepResult>, overall: Outcome, trace: seq<Event>, status: Status)

  datatype Verdict = Completed(overall: Outcome) | Raised

  datatype Ended<W> = Ended(world: W, verdict: Verdict, results: seq<StepResult>, trace: seq<Event>)

  // ── One step ────────────────────────────────────────────────────

  const NO_PROFILE := "vm_launch step requires guest image / VM profile context"
  const DUPLICATE := "Duplicate vm_launch step (guest is already running)"
  const NO_GUEST := "vm_stop: no running guest (run vm_launch or a guest step first)"
  const NO_GUEST_PROFILE := "Guest steps require a guest image path and VM profile"

  /** The id a `vm_launch` step settles on before it launches. */
  function EffectiveGuestId(stepId: string, profile: VMProfile, uuid: string): string {
    if stepId != "" then stepId else if Truthy(profile.guestId) then profile.guestId.value else uuid
  }

  /** Debug mode writes the id and the per-guest log paths into the profile. */
  function ProfileToLaunch(cfg: Config, stepId: string, profile: VMProfile, uuid: string): VMProfile {
    if !cfg.debug then profile
    else
      var id := EffectiveGuestId(stepId, profile, uuid);
      var dir := cfg.artifactDir + "/" + id;
      profile.(guestId := Some(id),
               guestErrorLog := dir + "/qemu-error.log",
               guestBootLog := dir + "/qemu-boot.log")
  }

  /** The call of `vm_launch`: it leaves a launch only when it returns one. */
  function Launching<W>(world: World<W>, profile: VMProfile, r: Run<W>): (Run<W>, LaunchOutcome) {
    var (w, o) := world.launch(r.world, profile);
    var id := if Truthy(profile.guestId) then profile.guestId.value else world.freshId(r.world);
    var launch := if o.Started? then Some(Launch(|r.trace|, profile, o.ok, o.message, id)) else None;
    (r.(world := w, launch := launch, trace := r.trace + [Launched(profile, o)]), o)
  }

  function PerformLaunch<W>(world: World<W>, cfg: Config, step: Step, r: Run<W>): (Run<W>, Option<StepResult>)
    requires step.action.VmLaunch?
  {
    if r.profile.None? then (r, Some(ErrorResult(step, NO_PROFILE)))
    else if r.launch.Some? then (r, Some(ErrorResult(step, DUPLICATE)))
    else
      var profile := ProfileToLaunch(cfg, step.action.guestId, r.profile.value, world.freshId(r.world));
      var (r', o) := Launching(world, profile, r.(profile := Some(profile)));
      (r', LaunchResult(step, o))
  }

  /** Debug mode reads the journal first, and survives only a vsock error there.
      A stop that raises OSError leaves the launch held. */
  function PerformStop<W>(world: World<W>, cfg: Config, step: Step, r: Run<W>): (Run<W>, Option<StepResult>)
  {
    if r.launch.None? then (r, Some(ErrorResult(step, NO_GUEST)))
    else
      var (w, journal) := if cfg.debug then world.journal(r.world, r.launch.value.profile) else (r.world, JournalRead);
      if journal.JournalEscapes? then (r.(world := w), None)
      else
        var (w', o) := world.stop(w, r.launch.value);
        (r.(world := w',
            launch := if o.Stopped? then None else r.launch,
            trace := r.trace + [StopTried(r.launch.value.handle, o.Stopped?)]),
         StopResult(step, o))
  }

  /** A guest or pull step starts a guest when there is none, from the context's
      profile; it then talks through the profile frozen in the launch. */
  function PerformGuest<W>(world: World<W>, step: Step, r: Run<W>): (Run<W>, Option<StepResult>)
    requires step.action.Guest? || step.action.GuestPull?
  {
    if r.profile.None? then (r, Some(ErrorResult(step, NO_GUEST_PROFILE)))
    else if r.launch.Some? then TalkToGuest(world, step, r)
    else
      var (r', o) := Launching(world, r.profile.value, r);
      match o
      case Refused(message) => (r', Some(ErrorResult(step, message)))
      case LaunchEscapes(_) => (r', None)
      case Started(_, _) => TalkToGuest(world, step, r')
  }

  function TalkToGuest<W>(world: World<W>, step: Step, r: Run<W>): (Run<W>, Option<StepResult>)
    requires r.launch.Some?
  {
    var launch := r.launch.value;
    if !launch.ok then (r, Some(ErrorResult(step, launch.message)))
    else
      var r' := r.(trace := r.trace + [GuestTalked(launch.handle, launch.profile, step)]);
      if step.action.Guest? then
        var (w, o) := world.guest(r.world, launch.profile, step);
        (r'.(world := w), GuestResult(step, o))
      else
        var (w, o) := world.pull(r.world, launch.profile, step);
        (r'.(world := w), PullResult(step, o))
  }

  function PerformCall<W>(world: World<W>, cfg: Config, step: Step, r: Run<W>): (Run<W>, Option<StepResult>)
    requires step.action.Callable?
  {
    var view := View(r.profile, r.launch, r.results, cfg.allowHostChanges);
    var (w, o) := world.call(r.world, step.action.handler, view);
    (r.(world := w, profile := o.profile,
        trace := r.trace + [HandlerCalled(step.action.handler, view, o.profile)]),
     CallResult(step, o.verdict))
  }

  /** One turn's work; it leaves the bookkeeping to `Advance`. */
  function Perform<W>(world: World<W>, cfg: Config, step: Step, r: Run<W>): (p: (Run<W>, Option<StepResult>))
    ensures p.0.results == r.results && p.0.overall == r.overall && p.0.status == r.status
    ensures p.1.Some? ==> p.1.value.step == step && p.1.value.result != Skip
  {
    match step.action
    case VmLaunch(_) => PerformLaunch(world, cfg, step, r)
    case VmStop => PerformStop(world, cfg, step, r)
    case Host(_) =>
      var (w, o) := world.host(r.world, step);
      (r.(world := w, trace := r.trace + [HostRan(step)]), HostResult(step, o))
    case Guest(_) => PerformGuest(world, step, r)
    case GuestPull(_, _) => PerformGuest(world, step, r)
    case Callable(_) => PerformCall(world, cfg, step, r)
  }

  function Skips(steps: seq<Step>): (s: seq<StepResult>)
    ensures |s| == |steps|
    ensures forall i | 0 <= i < |s| :: s[i] == StepResult(steps[i], Skip, None, None, None)
  {
    if steps == [] then [] else [StepResult(steps[0], Skip, None, None, None)] + Skips(steps[1..])
  }

  /** Append the result; a failed setup step ends the test and skips the rest. */
  function Record<W>(steps: seq<Step>, r: Run<W>, sr: StepResult): Run<W>
    requires |r.results| < |steps|
  {
    var r' := r.(results := r.results + [sr]);
    if !Failing(sr.result) || sr.step.severity == Info then r'
    else if sr.step.severity == Required then r'.(overall := Fail)
    else r'.(overall := Fail, results := r'.results + Skips(steps[|r'.results|..]), status := Halted)
  }

  function Advance<W>(world: World<W>, cfg: Config, steps: seq<Step>, r: Run<W>): Run<W>
    requires |r.results| < |steps|
  {
    var (r', sr) := Perform(world, cfg, steps[|r.results|], r);
    if sr.None? then r'.(status := Escaped) else Record(steps, r', sr.value)
  }

  // ── The whole test ──────────────────────────────────────────────

  function Start<W>(cfg: Config, plan: Plan, w: W): Run<W> {
    Run(w,
        if plan.requiresVm
        then Some(EffectiveProfile(plan.declared, cfg.guestPath, cfg.qemu, cfg.ovmf, cfg.debug)) else None,
        None, [], Pass, [], Running)
  }

  /** The run after `n` turns of the loop; a halted or escaped run stays as it is. */
  function After<W>(world: World<W>, cfg: Config, plan: Plan, w: W, n: nat): Run<W> {
    if n == 0 then Start(cfg, plan, w)
    else
      var r := After(world, cfg, plan, w, n - 1);
      if r.status.Running? && |r.results| < |plan.steps| then Advance(world, cfg, plan.steps, r) else r
  }

  /** A run that is no longer running does not change. */
  lemma {:induction false} StaysPut<W>(world: World<W>, cfg: Config, plan: Plan, w: W, n: nat, m: nat)
    requires n <= m
    requires !After(world, cfg, plan, w, n).status.Running?
    ensures After(world, cfg, plan, w, m) == After(world, cfg, plan, w, n)
    decreases m - n
  {
    if n < m {
      StaysPut(world, cfg, plan, w, n + 1, m);
    }
  }

  /** The `finally` clause: a launch still held is stopped, and an exception there
      replaces whatever the test was about to return. */
  function Finish<W>(world: World<W>, r: Run<W>): Ended<W> {
    var verdict := if r.status.Escaped? then Raised else Completed(r.overall);
    if r.launch.None? then Ended(r.world, verdict, r.results, r.trace)
    else
      var (w, o) := world.stop(r.world, r.launch.value);
      Ended(w, if o.Stopped? then verdict else Raised, r.results,
            r.trace + [StopTried(r.launch.value.handle, o.Stopped?)])
  }

  function Execute<W>(world: World<W>, cfg: Config, plan: Plan, w: W): Ended<W> {
    Finish(world, After(world, cfg, plan, w, |plan.steps|))
  }
}
