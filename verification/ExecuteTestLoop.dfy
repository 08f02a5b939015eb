/** `execute_test` in the form it has: a loop over the steps that updates its local
    `launch` and `overall`, the context's profile, and the one result list that the
    loop and the context share. */
module ExecuteTestLoop {
  import opened Models
  import opened VmProfiles
  import opened Runner
  import opened Executor

  class ResultList {
    var items: seq<StepResult>
    constructor ()
      ensures items == []
    {
      items := [];
    }
  }

  class StepContext {
    var profile: Option<VMProfile>
    var launch: Option<Launch>
    const stepResults: ResultList
    const allowHostChanges: bool

    constructor (stepResults: ResultList, profile: Option<VMProfile>, allowHostChanges: bool)
      ensures this.profile == profile && this.launch == None
      ensures this.stepResults == stepResults && this.allowHostChanges == allowHostChanges
    {
      this.stepResults := stepResults;
      this.profile := profile;
      this.launch := None;
      this.allowHostChanges := allowHostChanges;
    }

    /** What a handler sees at this moment, results included. */
    function Seen(): View
      reads this, stepResults
    {
      View(profile, launch, stepResults.items, allowHostChanges)
    }
  }

  /** `vm_launch` on a profile; the position in the history stands for the fresh
      process object. */
  method CallVmLaunch<W>(world: World<W>, profile: VMProfile, w0: W, history: seq<Event>)
    returns (launch: Option<Launch>, o: LaunchOutcome, w: W)
    ensures (w, o) == world.launch(w0, profile)
    ensures forall r: Run<W> | r.world == w0 && r.trace == history ::
              Launching(world, profile, r) ==
                (r.(world := w, launch := launch, trace := history + [Launched(profile, o)]), o)
  {
    var (w', outcome) := world.launch(w0, profile);
    w, o, launch := w', outcome, None;
    if o.Started? {
      var id := world.freshId(w0);
      if Truthy(profile.guestId) {
        id := profile.guestId.value;
      }
      launch := Some(Launch(|history|, profile, o.ok, o.message, id));
    }
  }

  /** The branches of the loop body for guest and pull steps. */
  method GuestOrPull<W>(world: World<W>, step: Step, ctx: StepContext, launch0: Option<Launch>, w0: W,
                        history0: seq<Event>, ghost r: Run<W>)
    returns (sr: Option<StepResult>, launch: Option<Launch>, w: W, history: seq<Event>)
    requires step.action.Guest? || step.action.GuestPull?
    requires r.world == w0 && r.profile == ctx.profile && r.launch == launch0 && r.trace == history0
    ensures PerformGuest(world, step, r) == (r.(world := w, launch := launch, trace := history), sr)
  {
    sr, launch, w, history := None, launch0, w0, history0;
    if ctx.profile.None? {
      return Some(ErrorResult(step, NO_GUEST_PROFILE)), launch, w, history;
    }
    if launch.None? {
      var o;
      launch, o, w := CallVmLaunch(world, ctx.profile.value, w, history);
      history := history + [Launched(ctx.profile.value, o)];
      if o.Refused? {
        sr := Some(ErrorResult(step, o.error));
      }
    }
    if launch.Some? && !launch.value.ok {
      sr := Some(ErrorResult(step, launch.value.message));
    } else if launch.Some? {
      history := history + [GuestTalked(launch.value.handle, launch.value.profile, step)];
      if step.action.Guest? {
        var (w', o) := world.guest(w, launch.value.profile, step);
        w, sr := w', GuestResult(step, o);
      } else {
        var (w', o) := world.pull(w, launch.value.profile, step);
        w, sr := w', PullResult(step, o);
      }
    }
  }

  /** The body of the loop up to the point where the result is appended. */
  method RunStep<W>(world: World<W>, cfg: Config, step: Step, ctx: StepContext, launch0: Option<Launch>, w0: W,
                    history0: seq<Event>, ghost r: Run<W>)
    returns (sr: Option<StepResult>, launch: Option<Launch>, w: W, history: seq<Event>)
    requires r.world == w0 && r.profile == ctx.profile && r.launch == launch0 && r.trace == history0
    requires ctx.launch == launch0 && r.results == ctx.stepResults.items
    requires cfg.allowHostChanges == ctx.allowHostChanges
    modifies ctx
    ensures Perform(world, cfg, step, r)
            == (r.(world := w, profile := ctx.profile, launch := launch, trace := history), sr)
  {
    sr, launch, w, history := None, launch0, w0, history0;
    match step.action {
      case VmLaunch(stepId) =>
        if ctx.profile.None? {
          sr := Some(ErrorResult(step, NO_PROFILE));
        } else if launch.Some? {
          sr := Some(ErrorResult(step, DUPLICATE));
        } else {
          var profile := ctx.profile.value;
          if cfg.debug {
            profile := ProfileToLaunch(cfg, stepId, profile, world.freshId(w));
            ctx.profile := Some(profile);
          }
          var o;
          launch, o, w := CallVmLaunch(world, profile, w, history);
          history := history + [Launched(profile, o)];
          sr := LaunchResult(step, o);
        }
      case VmStop =>
        if launch.None? {
          sr := Some(ErrorResult(step, NO_GUEST));
        } else {
          var journal := JournalRead;
          if cfg.debug {
            var (w', j) := world.journal(w, launch.value.profile);
            w, journal := w', j;
          }
          if !journal.JournalEscapes? {
            var (w', o) := world.stop(w, launch.value);
            history := history + [StopTried(launch.value.handle, o.Stopped?)];
            w, sr := w', StopResult(step, o);
            if o.Stopped? {
              launch := None;
            }
          }
        }
      case Host(_) =>
        var (w', o) := world.host(w, step);
        history := history + [HostRan(step)];
        w, sr := w', HostResult(step, o);
      case Callable(handler) =>
        var view := ctx.Seen();
        var (w', o) := world.call(w, handler, view);
        history := history + [HandlerCalled(handler, view, o.profile)];
        ctx.profile := o.profile;
        w, sr := w', CallResult(step, o.verdict);
      case Guest(_) =>
        sr, launch, w, history := GuestOrPull(world, step, ctx, launch, w, history, r);
      case GuestPull(_, _) =>
        sr, launch, w, history := GuestOrPull(world, step, ctx, launch, w, history, r);
    }
  }

  /** Append one result to the shared list and act on it; `skipped` says that the
      loop ends here. */
  method RecordResult<W>(steps: seq<Step>, list: ResultList, sr: StepResult, overall0: Outcome, ghost r: Run<W>)
    returns (overall: Outcome, skipped: bool)
    requires |list.items| < |steps| && r.results == list.items && r.overall == overall0 && r.status.Running?
    modifies list
    ensures Record(steps, r, sr)
            == r.(results := list.items, overall := overall, status := if skipped then Halted else Running)
  {
    overall, skipped := overall0, false;
    list.items := list.items + [sr];
    if Failing(sr.result) {
      if sr.step.severity == Setup {
        overall, skipped := Fail, true;
        SkipTheRest(list, steps);
      } else if sr.step.severity == Required {
        overall := Fail;
      }
    }
  }

  /** The inner loop: one skip result for every step not reached. */
  method SkipTheRest(list: ResultList, steps: seq<Step>)
    requires |list.items| <= |steps|
    modifies list
    ensures list.items == old(list.items) + Skips(steps[|old(list.items)|..])
  {
    hide Skips;
    ghost var before := list.items;
    ghost var all := Skips(steps[|before|..]);
    var j := |list.items|;
    while j < |steps|
      invariant |before| <= j <= |steps|
      invariant list.items == before + all[..j - |before|]
    {
      var skip := StepResult(steps[j], Skip, None, None, None);
      assert all[..j - |before|] + [skip] == all[..j + 1 - |before|];
      list.items := list.items + [skip];
      j := j + 1;
    }
  }

  /** The loop over the steps. */
  method RunSteps<W>(world: World<W>, cfg: Config, plan: Plan, ctx: StepContext, w0: W)
    returns (overall: Outcome, escaped: bool, launch: Option<Launch>, w: W, history: seq<Event>)
    requires ctx.profile == Start(cfg, plan, w0).profile
    requires ctx.stepResults.items == [] && ctx.allowHostChanges == cfg.allowHostChanges
    modifies ctx, ctx.stepResults
    ensures var r := After(world, cfg, plan, w0, |plan.steps|);
      && w == r.world && launch == r.launch && history == r.trace && overall == r.overall
      && ctx.stepResults.items == r.results && (escaped <==> r.status.Escaped?)
  {
    hide Perform, Skips;
    launch, overall, escaped, w, history := None, Pass, false, w0, [];
    ghost var r := Start(cfg, plan, w0);
    var i, halted := 0, false;
    while i < |plan.steps| && !halted && !escaped
      invariant i <= |plan.steps| && r == After(world, cfg, plan, w0, i)
      invariant r == Run(w, ctx.profile, launch, ctx.stepResults.items, overall, history,
                         if escaped then Escaped else if halted then Halted else Running)
      invariant !escaped && !halted ==> |ctx.stepResults.items| == i
    {
      ctx.launch := launch;
      var sr;
      sr, launch, w, history := RunStep(world, cfg, plan.steps[i], ctx, launch, w, history, r);
      ghost var performed := Perform(world, cfg, plan.steps[i], r).0;
      r := After(world, cfg, plan, w0, i + 1);
      if sr.None? {
        escaped := true;
      } else {
        overall, halted := RecordResult(plan.steps, ctx.stepResults, sr.value, overall, performed);
      }
      i := i + 1;
    }
    if escaped || halted {
      StaysPut(world, cfg, plan, w0, i, |plan.steps|);
    }
  }

  /** The whole of `execute_test`.  `loaded` is None when the test module does not
      load; no step runs then and the test is an error. */
  method ExecuteTest<W>(world: World<W>, cfg: Config, loaded: Option<Plan>, w0: W)
    returns (verdict: Verdict, results: seq<StepResult>, w: W, history: seq<Event>)
    ensures loaded.None? ==> (verdict, results, w, history) == (Completed(Error), [], w0, [])
    ensures loaded.Some? ==> Ended(w, verdict, results, history) == Execute(world, cfg, loaded.value, w0)
  {
    if loaded.None? {
      return Completed(Error), [], w0, [];
    }
    var plan := loaded.value;
    var profile: Option<VMProfile> := None;
    if plan.requiresVm {
      profile := Some(EffectiveProfile(plan.declared, cfg.guestPath, cfg.qemu, cfg.ovmf, cfg.debug));
    }
    var stepResults := new ResultList();
    var ctx := new StepContext(stepResults, profile, cfg.allowHostChanges);
    var overall, escaped, launch;
    overall, escaped, launch, w, history := RunSteps(world, cfg, plan, ctx, w0);
    verdict := if escaped then Raised else Completed(overall);
    results := stepResults.items;
    if launch.Some? {
      var (w', o) := world.stop(w, launch.value);
      history := history + [StopTried(launch.value.handle, o.Stopped?)];
      w := w';
      if !o.Stopped? {
        verdict := Raised;
      }
    }
  }
}
