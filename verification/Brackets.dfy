/** Which plans can run into "Duplicate vm_launch step". */
module Brackets {
  import opened Models
  import opened VmProfiles
  import opened Runner
  import opened Executor
  import Verdicts
  import Lifecycle

  /** May a guest be running after a step?  A launch, guest or pull step may leave
      one, a stop step leaves none, the other steps change nothing. */
  predicate RunsAfter(a: Action, before: bool) {
    a.VmLaunch? || a.Guest? || a.GuestPull? || (before && !a.VmStop?)
  }

  predicate MayRun(steps: seq<Step>, n: nat)
    requires n <= |steps|
  {
    n > 0 && RunsAfter(steps[n - 1].action, MayRun(steps, n - 1))
  }

  /** Every launch step comes first or after a stop, with no guest or pull step
      between. */
  predicate Bracketed(steps: seq<Step>) {
    forall n | 0 <= n < |steps| && steps[n].action.VmLaunch? :: !MayRun(steps, n)
  }

  /** The run reaches launch step n while a guest is still held. */
  predicate CollidesAt<W>(world: World<W>, cfg: Config, plan: Plan, w: W, n: nat) {
    && n < |plan.steps| && plan.steps[n].action.VmLaunch?
    && var r := After(world, cfg, plan, w, n);
       r.status.Running? && r.launch.Some?
  }

  ghost predicate NeverRefusesStop<W(!new)>(world: World<W>) {
    forall w, l :: !world.stop(w, l).1.StopRefused?
  }

  /** A stop that never raises OSError leaves no guest held, or ends the test. */
  lemma StopLeavesNone<W(!new)>(world: World<W>, cfg: Config, step: Step, r: Run<W>)
    requires NeverRefusesStop(world)
    ensures var (r', sr) := PerformStop(world, cfg, step, r); sr.Some? ==> r'.launch.None?
  {
    hide StopResult;
    if r.launch.Some? {
      var w := if cfg.debug then world.journal(r.world, r.launch.value.profile).0 else r.world;
      assert !world.stop(w, r.launch.value).1.StopRefused?;
      StopEscapeEndsTest(step, world.stop(w, r.launch.value).1);
    }
  }

  lemma StopEscapeEndsTest(step: Step, o: StopOutcome)
    ensures o.StopEscapes? ==> StopResult(step, o).None?
  {
  }

  lemma QuietKeepsLaunch<W>(world: World<W>, cfg: Config, step: Step, r: Run<W>)
    requires step.action.Host? || step.action.Callable?
    ensures Perform(world, cfg, step, r).0.launch == r.launch
  {
    hide HostResult, CallResult;
  }

  lemma PerformKeepsBracket<W(!new)>(world: World<W>, cfg: Config, steps: seq<Step>, r: Run<W>)
    requires NeverRefusesStop(world)
    requires |r.results| < |steps| && (r.launch.Some? ==> MayRun(steps, |r.results|))
    ensures var (r', sr) := Perform(world, cfg, steps[|r.results|], r);
      sr.Some? && r'.launch.Some? ==> MayRun(steps, |r.results| + 1)
  {
    hide PerformLaunch, PerformGuest, PerformStop, PerformCall, NeverRefusesStop;
    var step := steps[|r.results|];
    assert MayRun(steps, |r.results| + 1) == RunsAfter(step.action, MayRun(steps, |r.results|));
    match step.action {
      case VmStop => StopLeavesNone(world, cfg, step, r);
      case Host(_) => QuietKeepsLaunch(world, cfg, step, r);
      case Callable(_) => QuietKeepsLaunch(world, cfg, step, r);
      case _ =>
    }
  }

  lemma AdvanceKeepsBracket<W(!new)>(world: World<W>, cfg: Config, steps: seq<Step>, r: Run<W>)
    requires NeverRefusesStop(world) && r.status.Running?
    requires |r.results| < |steps| && (r.launch.Some? ==> MayRun(steps, |r.results|))
    ensures var r' := Advance(world, cfg, steps, r);
      r'.status.Running? && r'.launch.Some? ==> MayRun(steps, |r.results| + 1)
  {
    hide Perform, NeverRefusesStop, MayRun;
    PerformKeepsBracket(world, cfg, steps, r);
  }

  lemma {:induction false} HeldOnlyInBracket<W(!new)>(world: World<W>, cfg: Config, plan: Plan, w: W, n: nat)
    requires NeverRefusesStop(world) && n <= |plan.steps|
    ensures var r := After(world, cfg, plan, w, n);
      r.status.Running? ==> |r.results| == n && (r.launch.Some? ==> MayRun(plan.steps, n))
  {
    hide Advance, NeverRefusesStop, MayRun;
    Verdicts.EveryRunIsWellRecorded(world, cfg, plan, w, n);
    if n > 0 {
      HeldOnlyInBracket(world, cfg, plan, w, n - 1);
      var r := After(world, cfg, plan, w, n - 1);
      if r.status.Running? {
        AdvanceKeepsBracket(world, cfg, plan.steps, r);
      }
    }
  }

  /** If stopping never raises OSError, no run of a bracketed plan collides. */
  lemma BracketedPlansNeverCollide<W(!new)>(world: World<W>, cfg: Config, plan: Plan, w: W)
    requires Bracketed(plan.steps) && NeverRefusesStop(world)
    ensures forall n: nat :: !CollidesAt(world, cfg, plan, w, n)
  {
    forall n: nat ensures !CollidesAt(world, cfg, plan, w, n) {
      if n < |plan.steps| {
        HeldOnlyInBracket(world, cfg, plan, w, n);
      }
    }
  }

  // ── The converse ────────────────────────────────────────────────

  /** Steps that expect success, whose stops do not end the test. */
  predicate Ordinary(steps: seq<Step>) {
    forall n | 0 <= n < |steps| ::
      steps[n].expected == ExitCode(0) && (steps[n].action.VmStop? ==> steps[n].severity != Setup)
  }

  /** Stops do not fail the test either. */
  predicate LenientStops(steps: seq<Step>) {
    forall n | 0 <= n < |steps| && steps[n].action.VmStop? :: steps[n].severity == Info
  }

  /** A profile is set, and a guest runs, well booted, exactly as told. */
  predicate Ready<W>(r: Run<W>, running: bool) {
    r.profile.Some? && (r.launch.Some? <==> running) && (r.launch.Some? ==> r.launch.value.ok)
  }

  /** Everything outside succeeds, and handlers leave the profile as it is. */
  ghost predicate Sunny<W(!new)>(world: World<W>) {
    && (forall w, s :: world.host(w, s).1 == HostExited(0, "", ""))
    && (forall w, p :: world.launch(w, p).1 == Started(true, ""))
    && (forall w, l :: world.stop(w, l).1 == Stopped)
    && (forall w, p, s :: world.guest(w, p, s).1 == GuestExited(0, "", ""))
    && (forall w, p, s :: world.pull(w, p, s).1 == Pulled)
    && (forall w, p :: world.journal(w, p).1 == JournalRead)
    && (forall w, h, v :: world.call(w, h, v).1 == CallOutcome(v.profile, Returned(0, "", "")))
  }

  lemma SunnyWorldExists()
    ensures Sunny(Lifecycle.FixedWorld(Started(true, ""), Stopped))
  {
  }

  lemma SunnyGuest<W(!new)>(world: World<W>, step: Step, r: Run<W>, running: bool)
    requires Sunny(world) && step.expected == ExitCode(0) && Ready(r, running)
    requires step.action.Guest? || step.action.GuestPull?
    ensures var (r', sr) := PerformGuest(world, step, r);
      Ready(r', true) && sr.Some? && sr.value.result == Pass
  {
    if r.launch.None? {
      SunnyLaunching(world, r.profile.value, r);
      SunnyTalk(world, step, Launching(world, r.profile.value, r).0);
    } else {
      SunnyTalk(world, step, r);
    }
  }

  lemma SunnyTalk<W(!new)>(world: World<W>, step: Step, r: Run<W>)
    requires Sunny(world) && step.expected == ExitCode(0) && Ready(r, true)
    requires step.action.Guest? || step.action.GuestPull?
    ensures var (r', sr) := TalkToGuest(world, step, r);
      Ready(r', true) && sr.Some? && sr.value.result == Pass
  {
    var p := r.launch.value.profile;
    assert world.guest(r.world, p, step).1 == GuestExited(0, "", "");
    assert world.pull(r.world, p, step).1 == Pulled;
  }

  lemma SunnyLaunching<W(!new)>(world: World<W>, p: VMProfile, r: Run<W>)
    requires Sunny(world) && r.profile.Some?
    ensures var (r', o) := Launching(world, p, r); Ready(r', true) && o == Started(true, "")
  {
    assert world.launch(r.world, p).1 == Started(true, "");
  }

  lemma SunnyStop<W(!new)>(world: World<W>, cfg: Config, step: Step, r: Run<W>)
    requires Sunny(world) && r.profile.Some?
    ensures var (r', sr) := PerformStop(world, cfg, step, r); Ready(r', false) && sr.Some?
  {
    if r.launch.Some? {
      var l := r.launch.value;
      var w := if cfg.debug then world.journal(r.world, l.profile).0 else r.world;
      assert world.journal(r.world, l.profile).1 == JournalRead && world.stop(w, l).1 == Stopped;
    }
  }

  lemma SunnyLaunch<W(!new)>(world: World<W>, cfg: Config, step: Step, r: Run<W>)
    requires Sunny(world) && step.expected == ExitCode(0) && step.action.VmLaunch? && Ready(r, false)
    ensures var (r', sr) := PerformLaunch(world, cfg, step, r);
      Ready(r', true) && sr.Some? && sr.value.result == Pass
  {
    var p := ProfileToLaunch(cfg, step.action.guestId, r.profile.value, world.freshId(r.world));
    SunnyLaunching(world, p, r.(profile := Some(p)));
  }

  lemma SunnyCall<W(!new)>(world: World<W>, cfg: Config, step: Step, r: Run<W>, running: bool)
    requires Sunny(world) && step.expected == ExitCode(0) && step.action.Callable? && Ready(r, running)
    ensures var (r', sr) := PerformCall(world, cfg, step, r);
      Ready(r', running) && sr.Some? && sr.value.result == Pass
  {
    var view := View(r.profile, r.launch, r.results, cfg.allowHostChanges);
    assert world.call(r.world, step.action.handler, view).1 == CallOutcome(r.profile, Returned(0, "", ""));
  }

  lemma SunnyPerform<W(!new)>(world: World<W>, cfg: Config, step: Step, r: Run<W>, running: bool)
    requires Sunny(world) && step.expected == ExitCode(0) && Ready(r, running)
    requires step.action.VmLaunch? ==> !running
    ensures var (r', sr) := Perform(world, cfg, step, r);
      && sr.Some? && (sr.value.result == Pass || step.action.VmStop?)
      && Ready(r', RunsAfter(step.action, running))
  {
    match step.action {
      case VmLaunch(_) => SunnyLaunch(world, cfg, step, r);
      case Guest(_) => SunnyGuest(world, step, r, running);
      case GuestPull(_, _) => SunnyGuest(world, step, r, running);
      case VmStop => SunnyStop(world, cfg, step, r);
      case Host(_) => assert world.host(r.world, step).1 == HostExited(0, "", "");
      case Callable(_) => SunnyCall(world, cfg, step, r, running);
    }
  }

  lemma SunnyAdvance<W(!new)>(world: World<W>, cfg: Config, steps: seq<Step>, r: Run<W>, running: bool)
    requires Sunny(world) && |r.results| < |steps| && r.status.Running? && Ready(r, running)
    requires var s := steps[|r.results|];
      s.expected == ExitCode(0) && (s.action.VmLaunch? ==> !running) && (s.action.VmStop? ==> s.severity != Setup)
    ensures var r' := Advance(world, cfg, steps, r);
      && r'.status.Running? && |r'.results| == |r.results| + 1
      && Ready(r', RunsAfter(steps[|r.results|].action, running))
      && (r'.overall == r.overall || (steps[|r.results|].action.VmStop? && steps[|r.results|].severity != Info))
  {
    SunnyPerform(world, cfg, steps[|r.results|], r, running);
  }

  lemma {:induction false} SunnyRun<W(!new)>(world: World<W>, cfg: Config, plan: Plan, w: W, n: nat)
    requires Sunny(world) && Ordinary(plan.steps) && plan.requiresVm && n <= |plan.steps|
    requires forall k | 0 <= k < n && plan.steps[k].action.VmLaunch? :: !MayRun(plan.steps, k)
    ensures var r := After(world, cfg, plan, w, n);
      && r.status.Running? && |r.results| == n && Ready(r, MayRun(plan.steps, n))
      && (LenientStops(plan.steps) ==> r.overall == Pass)
  {
    hide Advance;
    if n > 0 {
      SunnyRun(world, cfg, plan, w, n - 1);
      SunnyAdvance(world, cfg, plan.steps, After(world, cfg, plan, w, n - 1), MayRun(plan.steps, n - 1));
    }
  }

  /** An ordinary plan that is not bracketed collides in every world where all goes
      well. */
  lemma {:induction false} UnbracketedPlansCollide<W(!new)>(world: World<W>, cfg: Config, plan: Plan, w: W, n: nat)
    requires Sunny(world) && Ordinary(plan.steps) && plan.requiresVm
    requires n < |plan.steps| && plan.steps[n].action.VmLaunch? && MayRun(plan.steps, n)
    ensures NeverRefusesStop(world)
    ensures exists k: nat :: k <= n && CollidesAt(world, cfg, plan, w, k)
  {
    if k: nat :| k < n && plan.steps[k].action.VmLaunch? && MayRun(plan.steps, k) {
      UnbracketedPlansCollide(world, cfg, plan, w, k);
    } else {
      SunnyRun(world, cfg, plan, w, n);
      assert CollidesAt(world, cfg, plan, w, n);
    }
  }

  /** And one that is bracketed passes there. */
  lemma BracketedPlansPass<W(!new)>(world: World<W>, cfg: Config, plan: Plan, w: W)
    requires Sunny(world) && Ordinary(plan.steps) && LenientStops(plan.steps) && plan.requiresVm
    requires Bracketed(plan.steps)
    ensures Execute(world, cfg, plan, w).verdict == Completed(Pass)
  {
    hide After;
    SunnyRun(world, cfg, plan, w, |plan.steps|);
    var r := After(world, cfg, plan, w, |plan.steps|);
    if r.launch.Some? {
      assert world.stop(r.world, r.launch.value).1 == Stopped;
    }
  }

  /** A refused stop is enough for a bracketed plan to collide. */
  lemma RefusedStopCollides(cfg: Config, declared: VMProfile, error: string)
    ensures var launch := Step("launch", Required, VmLaunch(""), ExitCode(0));
      var plan := Plan([launch, Step("stop", Info, VmStop, ExitCode(0)), launch], declared, true);
      && Bracketed(plan.steps)
      && CollidesAt(Lifecycle.FixedWorld(Started(true, ""), StopRefused(error)), cfg, plan, (), 2)
  {
    var world := Lifecycle.FixedWorld(Started(true, ""), StopRefused(error));
    var launch := Step("launch", Required, VmLaunch(""), ExitCode(0));
    var plan := Plan([launch, Step("stop", Info, VmStop, ExitCode(0)), launch], declared, true);
    var r0 := After(world, cfg, plan, (), 0);
    var r1 := After(world, cfg, plan, (), 1);
    assert r1 == Advance(world, cfg, plan.steps, r0);
    assert r1.launch.Some? && r1.status.Running? && |r1.results| == 1;
    assert After(world, cfg, plan, (), 2) == Advance(world, cfg, plan.steps, r1);
  }
}
