/** What each kind of step does and records, in any run (sev_verify/runner.py). */
module StepOutcomes {
  import opened Models
  import opened VmProfiles
  import opened Runner
  import opened Executor
  import Verdicts

  // ── What a step asks for ────────────────────────────────────────

  /** Success as the step states it: this exit code, or this text somewhere in the
      output. */
  ghost predicate Meets(e: Expected, code: int, out: string) {
    match e
    case ExitCode(c) => code == c
    case StdoutContains(text) => exists before: string, after: string :: out == before + text + after
  }

  lemma ExpectsIsMeets(e: Expected, code: int, out: string)
    ensures Expects(e, code, out) <==> Meets(e, code, out)
  {
    if e.StdoutContains? {
      if i :| 0 <= i <= |out| && OccursAt(out, e.text, i) {
        assert out == out[..i] + e.text + out[i + |e.text|..];
      }
      if before: string, after: string :| out == before + e.text + after {
        assert out[|before|..] == e.text + after;
        assert OccursAt(out, e.text, |before|);
      }
    }
  }

  /** The step passed or failed by what it asks for, and this was recorded of it. */
  ghost predicate JudgedOn(sr: StepResult, step: Step, code: int, out: string) {
    sr.result == if Meets(step.expected, code, out) then Pass else Fail
  }

  predicate Records(sr: StepResult, code: Option<int>, out: Option<string>, err: Option<string>) {
    sr.exitCode == code && sr.stdout == out && sr.stderr == err
  }

  /** An error, of which the message alone is recorded. */
  predicate IsError(sr: StepResult, message: string) {
    sr.result == Error && Records(sr, None, None, Some(message))
  }

  // ── A turn, by the kind of its step ─────────────────────────────

  /** In these predicates r is the run before the turn, r' the run after it and sr what
      the turn recorded. */
  predicate Idle<W(==)>(r: Run<W>, r': Run<W>) {
    r'.world == r.world && r'.profile == r.profile && r'.launch == r.launch && r'.trace == r.trace
  }

  /** The command ran, and its own exit code and output decide. */
  ghost predicate HostTurn<W>(world: World<W>, step: Step, r: Run<W>, r': Run<W>, sr: StepResult) {
    var (w, o) := world.host(r.world, step);
    && r'.world == w && r'.profile == r.profile && r'.launch == r.launch && r'.trace == r.trace + [HostRan(step)]
    && match o
       case HostExited(code, out, err) =>
         JudgedOn(sr, step, code, out) && Records(sr, Some(code), Some(out), Some(err))
       case HostFailed(message) => IsError(sr, message)
       case HostEscapes => false
  }

  /** The handler was shown the context as it stood; it may have replaced the profile. */
  ghost predicate CallTurn<W>(world: World<W>, cfg: Config, step: Step, r: Run<W>, r': Run<W>, sr: StepResult)
    requires step.action.Callable?
  {
    var view := View(r.profile, r.launch, r.results, cfg.allowHostChanges);
    var (w, o) := world.call(r.world, step.action.handler, view);
    && r'.world == w && r'.profile == o.profile && r'.launch == r.launch
    && r'.trace == r.trace + [HandlerCalled(step.action.handler, view, o.profile)]
    && match o.verdict
       case Returned(code, out, err) =>
         && JudgedOn(sr, step, code, out)
         && Records(sr, Some(code), if out == "" then None else Some(out), if err == "" then None else Some(err))
       case Broken(message) => IsError(sr, message)
       case CallEscapes => false
  }

  /** Without a guest an error.  A stop that works lets go of the guest; one that raises
      OSError does not.  Debug mode fetches the journal first. */
  ghost predicate StopTurn<W>(world: World<W>, cfg: Config, step: Step, r: Run<W>, r': Run<W>, sr: StepResult) {
    if r.launch.None? then IsError(sr, NO_GUEST) && Idle(r, r')
    else
      var l := r.launch.value;
      var w := if cfg.debug then world.journal(r.world, l.profile).0 else r.world;
      var (w', o) := world.stop(w, l);
      && (cfg.debug ==> !world.journal(r.world, l.profile).1.JournalEscapes?)
      && r'.world == w' && r'.profile == r.profile && r'.trace == r.trace + [StopTried(l.handle, o.Stopped?)]
      && match o
         case Stopped =>
           && r'.launch == None && JudgedOn(sr, step, 0, "Guest VM stopped")
           && Records(sr, Some(if sr.result == Pass then 0 else 1), Some("Guest VM stopped"), None)
         case StopRefused(message) => r'.launch == r.launch && IsError(sr, message)
         case StopEscapes => false
  }

  /** The profile that a launch step launches: the context's own, but in debug mode with
      an id, the step's if it has one, else the profile's, else a fresh one, and with the
      log files of that id. */
  predicate IsLaunchProfile(cfg: Config, stepId: string, given: VMProfile, uuid: string, p: VMProfile) {
    if !cfg.debug then p == given
    else
      && SameGuest(p, given) && p.debug == given.debug && p.guestId.Some?
      && (stepId != "" ==> p.guestId.value == stepId)
      && (stepId == "" && Truthy(given.guestId) ==> p.guestId == given.guestId)
      && (stepId == "" && !Truthy(given.guestId) ==> p.guestId.value == uuid)
      && p.guestErrorLog == cfg.artifactDir + "/" + p.guestId.value + "/qemu-error.log"
      && p.guestBootLog == cfg.artifactDir + "/" + p.guestId.value + "/qemu-boot.log"
  }

  /** A guest was launched with this profile, and is held if there is one to hold. */
  predicate HoldsLaunched<W>(uuid: string, p: VMProfile, o: LaunchOutcome, r: Run<W>, held: Option<Launch>) {
    if !o.Started? then held == None
    else
      && held.Some? && held.value.handle == |r.trace| && held.value.profile == p
      && held.value.ok == o.ok && held.value.message == o.message
      && held.value.guestId == if Truthy(p.guestId) then p.guestId.value else uuid
  }

  /** A launch that was refused is an outcome with exit code 1, which a step may ask for;
      otherwise it is an error. */
  ghost predicate LaunchTurn<W>(world: World<W>, cfg: Config, step: Step, r: Run<W>, r': Run<W>, sr: StepResult)
    requires step.action.VmLaunch?
  {
    if r.profile.None? then IsError(sr, NO_PROFILE) && Idle(r, r')
    else if r.launch.Some? then IsError(sr, DUPLICATE) && Idle(r, r')
    else
      var uuid := world.freshId(r.world);
      && r'.profile.Some? && IsLaunchProfile(cfg, step.action.guestId, r.profile.value, uuid, r'.profile.value)
      && var p := r'.profile.value;
         var (w, o) := world.launch(r.world, p);
         && r'.world == w && r'.trace == r.trace + [Launched(p, o)] && HoldsLaunched(uuid, p, o, r, r'.launch)
         && match o
            case Started(ok, message) =>
              && JudgedOn(sr, step, if ok then 0 else 1, message)
              && Records(sr, Some(if ok then 0 else 1), if ok then Some(message) else None,
                         if ok then None else Some(message))
            case Refused(message) =>
              && sr.result == (if Meets(step.expected, 1, message) then Pass else Error)
              && Records(sr, Some(1), None, Some(message))
            case LaunchEscapes(_) => false
  }

  /** Talking to a guest that booted, through the profile it was launched with; w and t
      are the world and the history at that point. */
  ghost predicate TalkTurn<W>(world: World<W>, step: Step, l: Launch, w: W, t: seq<Event>, r': Run<W>,
                              sr: StepResult)
  {
    && r'.launch == Some(l)
    && if !l.ok then IsError(sr, l.message) && r'.world == w && r'.trace == t
       else
         && r'.trace == t + [GuestTalked(l.handle, l.profile, step)]
         && if step.action.Guest? then
              var (w', o) := world.guest(w, l.profile, step);
              && r'.world == w'
              && match o
                 case GuestExited(code, out, err) =>
                   JudgedOn(sr, step, code, out) && Records(sr, Some(code), Some(out), Some(err))
                 case GuestVsock(message) => IsError(sr, message)
                 case GuestEscapes => false
            else
              var (w', o) := world.pull(w, l.profile, step);
              && r'.world == w'
              && match o
                 case Pulled =>
                   JudgedOn(sr, step, 0, "") && sr.exitCode == Some(0) && sr.stdout.Some? && sr.stderr.None?
                 case PullVsock(message) => IsError(sr, message)
                 case PullEscapes => false
  }

  /** A guest or pull step launches the context's guest if none is held. */
  ghost predicate GuestTurn<W>(world: World<W>, step: Step, r: Run<W>, r': Run<W>, sr: StepResult) {
    if r.profile.None? then IsError(sr, NO_GUEST_PROFILE) && Idle(r, r')
    else
      && r'.profile == r.profile
      && if r.launch.Some? then TalkTurn(world, step, r.launch.value, r.world, r.trace, r', sr)
         else
           var p := r.profile.value;
           var (w, o) := world.launch(r.world, p);
           var t := r.trace + [Launched(p, o)];
           && HoldsLaunched(world.freshId(r.world), p, o, r, r'.launch)
           && match o
              case Started(_, _) => TalkTurn(world, step, r'.launch.value, w, t, r', sr)
              case Refused(message) => IsError(sr, message) && r'.world == w && r'.trace == t
              case LaunchEscapes(_) => false
  }

  ghost predicate Turn<W>(world: World<W>, cfg: Config, step: Step, r: Run<W>, r': Run<W>, sr: StepResult) {
    && sr.step == step
    && match step.action
       case Host(_) => HostTurn(world, step, r, r', sr)
       case Callable(_) => CallTurn(world, cfg, step, r, r', sr)
       case VmStop => StopTurn(world, cfg, step, r, r', sr)
       case VmLaunch(_) => LaunchTurn(world, cfg, step, r, r', sr)
       case Guest(_) => GuestTurn(world, step, r, r', sr)
       case GuestPull(_, _) => GuestTurn(world, step, r, r', sr)
  }

  // ── Every turn of every run ─────────────────────────────────────

  lemma HostDoes<W>(world: World<W>, cfg: Config, step: Step, r: Run<W>)
    requires step.action.Host?
    ensures var (r', sr) := Perform(world, cfg, step, r); sr.Some? ==> HostTurn(world, step, r, r', sr.value)
  {
    hide Expects, Meets;
    var o := world.host(r.world, step).1;
    if o.HostExited? {
      ExpectsIsMeets(step.expected, o.code, o.out);
    }
  }

  lemma CallDoes<W>(world: World<W>, cfg: Config, step: Step, r: Run<W>)
    requires step.action.Callable?
    ensures var (r', sr) := Perform(world, cfg, step, r); sr.Some? ==> CallTurn(world, cfg, step, r, r', sr.value)
  {
    hide Expects, Meets;
    var view := View(r.profile, r.launch, r.results, cfg.allowHostChanges);
    var v := world.call(r.world, step.action.handler, view).1.verdict;
    if v.Returned? {
      ExpectsIsMeets(step.expected, v.code, v.out);
    }
  }

  lemma StopDoes<W>(world: World<W>, cfg: Config, step: Step, r: Run<W>)
    requires step.action.VmStop?
    ensures var (r', sr) := Perform(world, cfg, step, r); sr.Some? ==> StopTurn(world, cfg, step, r, r', sr.value)
  {
    hide Expects, Meets;
    ExpectsIsMeets(step.expected, 0, "Guest VM stopped");
  }

  lemma LaunchProfileIs(cfg: Config, stepId: string, given: VMProfile, uuid: string)
    ensures IsLaunchProfile(cfg, stepId, given, uuid, ProfileToLaunch(cfg, stepId, given, uuid))
  {
    if cfg.debug {
      var dir := cfg.artifactDir + "/" + EffectiveGuestId(stepId, given, uuid);
      assert dir + "/qemu-error.log" == ProfileToLaunch(cfg, stepId, given, uuid).guestErrorLog;
    }
  }

  lemma LaunchDoes<W>(world: World<W>, cfg: Config, step: Step, r: Run<W>)
    requires step.action.VmLaunch?
    ensures var (r', sr) := Perform(world, cfg, step, r); sr.Some? ==> LaunchTurn(world, cfg, step, r, r', sr.value)
  {
    hide Expects, Meets, IsLaunchProfile, ProfileToLaunch;
    if r.profile.Some? && r.launch.None? {
      var uuid := world.freshId(r.world);
      LaunchProfileIs(cfg, step.action.guestId, r.profile.value, uuid);
      var o := world.launch(r.world, ProfileToLaunch(cfg, step.action.guestId, r.profile.value, uuid)).1;
      match o {
        case Started(ok, message) => ExpectsIsMeets(step.expected, if ok then 0 else 1, message);
        case Refused(message) => ExpectsIsMeets(step.expected, 1, message);
        case LaunchEscapes(_) =>
      }
    }
  }

  lemma TalkDoes<W>(world: World<W>, step: Step, r: Run<W>)
    requires step.action.Guest? || step.action.GuestPull?
    requires r.launch.Some?
    ensures var (r', sr) := TalkToGuest(world, step, r);
      && r'.profile == r.profile && r'.launch == r.launch
      && (sr.Some? ==> TalkTurn(world, step, r.launch.value, r.world, r.trace, r', sr.value))
  {
    hide Expects, Meets;
    var p := r.launch.value.profile;
    ExpectsIsMeets(step.expected, 0, "");
    if step.action.Guest? {
      var o := world.guest(r.world, p, step).1;
      if o.GuestExited? {
        ExpectsIsMeets(step.expected, o.code, o.out);
      }
    }
  }

  lemma GuestDoes<W>(world: World<W>, cfg: Config, step: Step, r: Run<W>)
    requires step.action.Guest? || step.action.GuestPull?
    ensures var (r', sr) := Perform(world, cfg, step, r); sr.Some? ==> GuestTurn(world, step, r, r', sr.value)
  {
    hide TalkToGuest, TalkTurn;
    if r.profile.Some? {
      if r.launch.Some? {
        TalkDoes(world, step, r);
      } else {
        var (r', o) := Launching(world, r.profile.value, r);
        if o.Started? {
          TalkDoes(world, step, r');
        }
      }
    }
  }

  lemma PerformDoes<W>(world: World<W>, cfg: Config, step: Step, r: Run<W>)
    ensures var (r', sr) := Perform(world, cfg, step, r); sr.Some? ==> Turn(world, cfg, step, r, r', sr.value)
  {
    hide HostTurn, CallTurn, StopTurn, LaunchTurn, GuestTurn;
    match step.action {
      case Host(_) => HostDoes(world, cfg, step, r);
      case Callable(_) => CallDoes(world, cfg, step, r);
      case VmStop => StopDoes(world, cfg, step, r);
      case VmLaunch(_) => LaunchDoes(world, cfg, step, r);
      case Guest(_) => GuestDoes(world, cfg, step, r);
      case GuestPull(_, _) => GuestDoes(world, cfg, step, r);
    }
  }

  /** Bookkeeping touches none of what a turn is about. */
  lemma SameTurn<W>(world: World<W>, cfg: Config, step: Step, r: Run<W>, p: Run<W>, a: Run<W>, sr: StepResult)
    requires a.world == p.world && a.launch == p.launch && a.profile == p.profile && a.trace == p.trace
    requires Turn(world, cfg, step, r, p, sr)
    ensures Turn(world, cfg, step, r, a, sr)
  {
    hide Meets, IsLaunchProfile;
  }

  lemma BookkeepingKeeps<W>(world: World<W>, cfg: Config, steps: seq<Step>, r: Run<W>)
    requires |r.results| < |steps|
    ensures var a, p := Advance(world, cfg, steps, r), Perform(world, cfg, steps[|r.results|], r).0;
      a.world == p.world && a.launch == p.launch && a.profile == p.profile && a.trace == p.trace
  {
    hide Perform;
  }

  /** For every plan and every world: each step that had its turn did what its kind does,
      and its result is what that gave, judged as the step asks. */
  lemma EveryTurn<W>(world: World<W>, cfg: Config, plan: Plan, w: W, n: nat)
    requires n < |plan.steps| && Verdicts.HadTurn(Execute(world, cfg, plan, w).results, n)
    ensures Turn(world, cfg, plan.steps[n], After(world, cfg, plan, w, n), After(world, cfg, plan, w, n + 1),
                 Execute(world, cfg, plan, w).results[n])
  {
    hide Perform, Advance, Turn;
    var r := After(world, cfg, plan, w, n);
    Verdicts.TurnOf(world, cfg, plan, w, n);
    PerformDoes(world, cfg, plan.steps[n], r);
    BookkeepingKeeps(world, cfg, plan.steps, r);
    SameTurn(world, cfg, plan.steps[n], r, Perform(world, cfg, plan.steps[n], r).0,
             After(world, cfg, plan, w, n + 1), Execute(world, cfg, plan, w).results[n]);
  }

  // ── Where a run starts ──────────────────────────────────────────

  /** The profile a run starts with: that of the test module, with the guest image of the
      command line, and with its QEMU, its OVMF and its debug flag where they are given. */
  predicate IsMerged(declared: VMProfile, cfg: Config, p: VMProfile) {
    && p.imagePath == cfg.guestPath
    && p.qemuBinary == (if cfg.qemu.Some? then cfg.qemu.value else declared.qemuBinary)
    && p.ovmfPath == (if cfg.ovmf.Some? then cfg.ovmf else declared.ovmfPath)
    && p.debug == (cfg.debug || declared.debug)
    && p.(imagePath := declared.imagePath, qemuBinary := declared.qemuBinary, ovmfPath := declared.ovmfPath,
          debug := declared.debug) == declared
  }

  lemma ProfileIsMerged(declared: VMProfile, cfg: Config)
    ensures IsMerged(declared, cfg, EffectiveProfile(declared, cfg.guestPath, cfg.qemu, cfg.ovmf, cfg.debug))
  {
    var imaged := declared.(imagePath := cfg.guestPath);
    var qemu := if cfg.qemu.Some? then imaged.(qemuBinary := cfg.qemu.value) else imaged;
    assert qemu == declared.(imagePath := cfg.guestPath, qemuBinary := qemu.qemuBinary);
    var ovmf := if cfg.ovmf.Some? then qemu.(ovmfPath := cfg.ovmf) else qemu;
    assert ovmf == declared.(imagePath := cfg.guestPath, qemuBinary := qemu.qemuBinary, ovmfPath := ovmf.ovmfPath);
  }

  /** A run starts with that profile if its test has a guest, without one otherwise; with
      nothing launched and nothing recorded. */
  lemma EveryRunStarts<W>(world: World<W>, cfg: Config, plan: Plan, w: W)
    ensures var r := After(world, cfg, plan, w, 0);
      && r.world == w && r.launch == None && r.results == [] && r.trace == [] && r.status.Running?
      && (r.profile.Some? <==> plan.requiresVm)
      && (r.profile.Some? ==> IsMerged(plan.declared, cfg, r.profile.value))
  {
    hide EffectiveProfile, IsMerged;
    ProfileIsMerged(plan.declared, cfg);
  }

  /** And it ends by stopping a guest that is still held; it raises exactly if the loop did or
      that stop does. */
  lemma EveryRunEnds<W>(world: World<W>, cfg: Config, plan: Plan, w: W)
    ensures var r, end := After(world, cfg, plan, w, |plan.steps|), Execute(world, cfg, plan, w);
      && end.results == r.results
      && (end.verdict.Completed? ==> end.verdict.overall == r.overall)
      && if r.launch.None? then
           end.world == r.world && end.trace == r.trace && (end.verdict.Raised? <==> r.status.Escaped?)
         else
           var (w', o) := world.stop(r.world, r.launch.value);
           && end.world == w' && end.trace == r.trace + [StopTried(r.launch.value.handle, o.Stopped?)]
           && (end.verdict.Raised? <==> r.status.Escaped? || !o.Stopped?)
  {
    hide After;
  }
}
