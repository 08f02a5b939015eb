/** The result list and the verdict of every run. */
module Verdicts {
  import opened Models
  import opened VmProfiles
  import opened Runner
  import opened Executor

  predicate SetupFailed(sr: StepResult) {
    sr.step.severity == Setup && Failing(sr.result)
  }

  predicate Decisive(sr: StepResult) {
    sr.step.severity != Info && Failing(sr.result)
  }

  /** The list follows the plan, and the verdict follows the list. */
  predicate Faithful(steps: seq<Step>, results: seq<StepResult>, overall: Outcome) {
    && |results| <= |steps|
    && (forall j | 0 <= j < |results| :: results[j].step == steps[j])
    && (overall == Pass || overall == Fail)
    && (overall == Pass <==> forall j | 0 <= j < |results| :: !Decisive(results[j]))
  }

  /** A step is skipped exactly when a setup step before it failed or errored. */
  predicate SkipsExplained(results: seq<StepResult>) {
    forall j | 0 <= j < |results| ::
      results[j].result == Skip <==> exists i | 0 <= i < j :: SetupFailed(results[i])
  }

  ghost predicate WellRecorded<W>(steps: seq<Step>, r: Run<W>) {
    && Faithful(steps, r.results, r.overall)
    && SkipsExplained(r.results)
    && (r.status.Halted? ==> |r.results| == |steps|)
    && (r.status.Running? ==>
          forall j | 0 <= j < |r.results| :: !SetupFailed(r.results[j]) && r.results[j].result != Skip)
  }

  lemma RecordKeeps<W>(steps: seq<Step>, r: Run<W>, sr: StepResult)
    requires WellRecorded(steps, r) && r.status.Running? && |r.results| < |steps|
    requires sr.step == steps[|r.results|] && sr.result != Skip
    ensures WellRecorded(steps, Record(steps, r, sr))
    ensures var r' := Record(steps, r, sr); r'.status.Running? ==> |r'.results| == |r.results| + 1
  {
    var n := |r.results|;
    var r' := Record(steps, r, sr);
    assert r.results + [sr] <= r'.results;
    assert r'.results[n] == sr;
    assert forall j | 0 <= j < n :: r'.results[j] == r.results[j];
    if Decisive(sr) {
      assert Decisive(r'.results[n]);
    }
    if r'.status.Halted? {
      assert SetupFailed(r'.results[n]);
      assert forall j | n < j < |steps| :: r'.results[j] == StepResult(steps[j], Skip, None, None, None);
    }
  }

  lemma AdvanceRecords<W>(world: World<W>, cfg: Config, steps: seq<Step>, r: Run<W>)
    requires WellRecorded(steps, r) && r.status.Running? && |r.results| < |steps|
    ensures var r' := Advance(world, cfg, steps, r);
      && WellRecorded(steps, r')
      && (r'.status.Running? ==> |r'.results| == |r.results| + 1)
      && (r'.status.Escaped? ==> r'.results == r.results)
      && (forall j | |r.results| < j < |r'.results| :: r'.results[j].result == Skip)
  {
    hide Perform;
    var (r', sr) := Perform(world, cfg, steps[|r.results|], r);
    if sr.Some? {
      RecordKeeps(steps, r', sr.value);
    }
  }

  lemma {:induction false} EveryRunIsWellRecorded<W>(world: World<W>, cfg: Config, plan: Plan, w: W, n: nat)
    ensures var r := After(world, cfg, plan, w, n);
      && WellRecorded(plan.steps, r)
      && (r.status.Running? ==> |r.results| == if n < |plan.steps| then n else |plan.steps|)
      && (r.status.Escaped? ==> |r.results| < n)
      && (forall j | n <= j < |r.results| :: r.results[j].result == Skip)
  {
    hide Advance;
    if n > 0 {
      EveryRunIsWellRecorded(world, cfg, plan, w, n - 1);
      var r := After(world, cfg, plan, w, n - 1);
      if r.status.Running? && |r.results| < |plan.steps| {
        AdvanceRecords(world, cfg, plan.steps, r);
      }
    }
  }

  /** For every plan and every world, a test that returns has one result per step, in
      plan order; the skipped steps are those after a failed or errored setup step;
      and it passed exactly when no setup or required step failed or errored. */
  lemma ResultsAndVerdict<W>(world: World<W>, cfg: Config, plan: Plan, w: W)
    requires Execute(world, cfg, plan, w).verdict.Completed?
    ensures var end := Execute(world, cfg, plan, w);
      && |end.results| == |plan.steps|
      && Faithful(plan.steps, end.results, end.verdict.overall)
      && SkipsExplained(end.results)
  {
    EveryRunIsWellRecorded(world, cfg, plan, w, |plan.steps|);
  }

  // ── What handlers see ───────────────────────────────────────────

  /** It is the handler of the n-th step, and it saw the results of the n steps before
      it, all of them executed and none a failed setup step. */
  predicate SawItsPast(steps: seq<Step>, results: seq<StepResult>, e: Event) {
    e.HandlerCalled? ==>
      var n := |e.view.results|;
      && n < |steps| && steps[n].action == Callable(e.handler) && e.view.results <= results
      && forall j | 0 <= j < n :: results[j].result != Skip && !SetupFailed(results[j])
  }

  predicate AllSawTheirPast(steps: seq<Step>, results: seq<StepResult>, t: seq<Event>) {
    forall k | 0 <= k < |t| :: SawItsPast(steps, results, t[k])
  }

  ghost predicate Informed<W>(steps: seq<Step>, r: Run<W>) {
    WellRecorded(steps, r) && AllSawTheirPast(steps, r.results, r.trace)
  }

  lemma PerformShowsPast<W>(world: World<W>, cfg: Config, steps: seq<Step>, r: Run<W>)
    requires |r.results| < |steps| && AllSawTheirPast(steps, r.results, r.trace)
    requires r.status.Running? && WellRecorded(steps, r)
    ensures AllSawTheirPast(steps, r.results, Perform(world, cfg, steps[|r.results|], r).0.trace)
  {
    hide HostResult, CallResult, GuestResult, PullResult, StopResult, LaunchResult, Faithful, SkipsExplained;
  }

  lemma AdvanceInforms<W>(world: World<W>, cfg: Config, steps: seq<Step>, r: Run<W>)
    requires |r.results| < |steps| && r.status.Running? && Informed(steps, r)
    ensures Informed(steps, Advance(world, cfg, steps, r))
  {
    PerformShowsPast(world, cfg, steps, r);
    AdvanceRecords(world, cfg, steps, r);
    var r1, r2 := Perform(world, cfg, steps[|r.results|], r).0, Advance(world, cfg, steps, r);
    assert r.results <= r2.results && r2.trace == r1.trace;
    forall k | 0 <= k < |r2.trace| ensures SawItsPast(steps, r2.results, r2.trace[k]) {
      assert SawItsPast(steps, r.results, r1.trace[k]);
    }
  }

  lemma {:induction false} EveryRunIsInformed<W>(world: World<W>, cfg: Config, plan: Plan, w: W, n: nat)
    ensures Informed(plan.steps, After(world, cfg, plan, w, n))
  {
    if n > 0 {
      var r := After(world, cfg, plan, w, n - 1);
      EveryRunIsInformed(world, cfg, plan, w, n - 1);
      if r.status.Running? && |r.results| < |plan.steps| {
        AdvanceInforms(world, cfg, plan.steps, r);
      }
    }
  }

  /** Through the shared list, every handler sees exactly the results of the steps
      before its own, as they stand in the final list; also when the test raises. */
  lemma HandlersSeeEarlierResults<W>(world: World<W>, cfg: Config, plan: Plan, w: W)
    ensures var end := Execute(world, cfg, plan, w); AllSawTheirPast(plan.steps, end.results, end.trace)
  {
    EveryRunIsInformed(world, cfg, plan, w, |plan.steps|);
  }

  // ── The turn behind a result ────────────────────────────────────

  /** Results are only ever appended, and events too. */
  lemma {:induction false} RunsGrow<W>(world: World<W>, cfg: Config, plan: Plan, w: W, n: nat, m: nat)
    requires n <= m
    ensures After(world, cfg, plan, w, n).results <= After(world, cfg, plan, w, m).results
    ensures After(world, cfg, plan, w, n).trace <= After(world, cfg, plan, w, m).trace
    decreases m - n
  {
    hide Advance;
    if n < m {
      var r := After(world, cfg, plan, w, n);
      if r.status.Running? && |r.results| < |plan.steps| {
        AdvanceGrows(world, cfg, plan.steps, r);
      }
      RunsGrow(world, cfg, plan, w, n + 1, m);
    }
  }

  lemma AdvanceGrows<W>(world: World<W>, cfg: Config, steps: seq<Step>, r: Run<W>)
    requires |r.results| < |steps|
    ensures r.results <= Advance(world, cfg, steps, r).results
    ensures r.trace <= Advance(world, cfg, steps, r).trace
  {
    PerformGrows(world, cfg, steps[|r.results|], r);
  }

  lemma PerformGrows<W>(world: World<W>, cfg: Config, step: Step, r: Run<W>)
    ensures r.trace <= Perform(world, cfg, step, r).0.trace
  {
  }

  /** The step had its turn and recorded a result. */
  predicate HadTurn(results: seq<StepResult>, n: nat) {
    n < |results| && results[n].result != Skip
  }

  lemma TurnWasRunning<W>(world: World<W>, cfg: Config, plan: Plan, w: W, n: nat)
    requires n < |plan.steps| && HadTurn(Execute(world, cfg, plan, w).results, n)
    ensures After(world, cfg, plan, w, n).status.Running? && |After(world, cfg, plan, w, n).results| == n
  {
    EveryRunIsWellRecorded(world, cfg, plan, w, n);
    if !After(world, cfg, plan, w, n).status.Running? {
      StaysPut(world, cfg, plan, w, n, |plan.steps|);
    }
  }

  /** What a turn recorded is what the list holds at its place in the end. */
  lemma TurnRecords<W>(world: World<W>, cfg: Config, steps: seq<Step>, r: Run<W>, end: Run<W>)
    requires |r.results| < |steps| && r.status.Running?
    requires var r' := Advance(world, cfg, steps, r);
      r'.results <= end.results && (r'.status.Escaped? ==> end == r')
    requires |r.results| < |end.results|
    ensures Perform(world, cfg, steps[|r.results|], r).1 == Some(end.results[|r.results|])
  {
  }

  /** A result that is not a skip was recorded by its own turn of the loop. */
  lemma TurnOf<W>(world: World<W>, cfg: Config, plan: Plan, w: W, n: nat)
    requires n < |plan.steps| && HadTurn(Execute(world, cfg, plan, w).results, n)
    ensures var r := After(world, cfg, plan, w, n);
      && r.status.Running? && |r.results| == n
      && r.results <= Execute(world, cfg, plan, w).results
      && After(world, cfg, plan, w, n + 1) == Advance(world, cfg, plan.steps, r)
      && Perform(world, cfg, plan.steps[n], r).1 == Some(Execute(world, cfg, plan, w).results[n])
  {
    hide Advance, Perform;
    TurnWasRunning(world, cfg, plan, w, n);
    RunsGrow(world, cfg, plan, w, n, |plan.steps|);
    RunsGrow(world, cfg, plan, w, n + 1, |plan.steps|);
    if After(world, cfg, plan, w, n + 1).status.Escaped? {
      StaysPut(world, cfg, plan, w, n + 1, |plan.steps|);
    }
    TurnRecords(world, cfg, plan.steps, After(world, cfg, plan, w, n), After(world, cfg, plan, w, |plan.steps|));
  }

  /** In a passing test every step that counts has passed. */
  lemma PassedStep<W>(world: World<W>, cfg: Config, plan: Plan, w: W, n: nat)
    requires Execute(world, cfg, plan, w).verdict == Completed(Pass)
    requires n < |plan.steps| && plan.steps[n].severity != Info
    ensures var results := Execute(world, cfg, plan, w).results;
      HadTurn(results, n) && results[n].result == Pass
  {
    ResultsAndVerdict(world, cfg, plan, w);
    var results := Execute(world, cfg, plan, w).results;
    assert forall i | 0 <= i <= n :: !Decisive(results[i]);
  }

  /** And it did so in its own turn. */
  lemma PassedTurn<W>(world: World<W>, cfg: Config, plan: Plan, w: W, n: nat)
    requires Execute(world, cfg, plan, w).verdict == Completed(Pass)
    requires n < |plan.steps| && plan.steps[n].severity != Info
    ensures var r := After(world, cfg, plan, w, n);
      && r.status.Running? && |r.results| == n
      && var sr := Perform(world, cfg, plan.steps[n], r).1;
         sr.Some? && sr.value.result == Pass
  {
    PassedStep(world, cfg, plan, w, n);
    TurnOf(world, cfg, plan, w, n);
  }

  /** What a handler called in this turn is shown. */
  function ViewOf<W>(cfg: Config, r: Run<W>): View {
    View(r.profile, r.launch, r.results, cfg.allowHostChanges)
  }

  lemma CallResultOf<W>(world: World<W>, cfg: Config, step: Step, r: Run<W>)
    requires step.action.Callable?
    ensures Perform(world, cfg, step, r).1
            == CallResult(step, world.call(r.world, step.action.handler, ViewOf(cfg, r)).1.verdict)
  {
  }

  /** The result of a callable step is what its handler made of the world at its turn. */
  lemma CallOfTurn<W>(world: World<W>, cfg: Config, plan: Plan, w: W, n: nat)
    requires n < |plan.steps| && plan.steps[n].action.Callable?
    requires HadTurn(Execute(world, cfg, plan, w).results, n)
    ensures var r := After(world, cfg, plan, w, n);
      CallResult(plan.steps[n], world.call(r.world, plan.steps[n].action.handler, ViewOf(cfg, r)).1.verdict)
      == Some(Execute(world, cfg, plan, w).results[n])
  {
    hide Perform, Advance, CallResult, ViewOf;
    TurnOf(world, cfg, plan, w, n);
    CallResultOf(world, cfg, plan.steps[n], After(world, cfg, plan, w, n));
  }

  // ── Exceptions ──────────────────────────────────────────────────

  /** Nothing outside raises but what the harness reports. */
  ghost predicate NeverEscapes<W(!new)>(world: World<W>) {
    && (forall w, s: Step | s.action.Host? :: !world.host(w, s).1.HostEscapes?)
    && (forall w, p :: !world.launch(w, p).1.LaunchEscapes?)
    && (forall w, l :: !world.stop(w, l).1.StopEscapes?)
    && (forall w, p, s: Step | s.action.Guest? :: !world.guest(w, p, s).1.GuestEscapes?)
    && (forall w, p, s: Step | s.action.GuestPull? :: !world.pull(w, p, s).1.PullEscapes?)
    && (forall w, p :: !world.journal(w, p).1.JournalEscapes?)
    && (forall w, h, v :: !world.call(w, h, v).1.verdict.CallEscapes?)
  }

  lemma LaunchReports<W(!new)>(world: World<W>, cfg: Config, step: Step, r: Run<W>)
    requires NeverEscapes(world) && step.action.VmLaunch?
    ensures PerformLaunch(world, cfg, step, r).1.Some?
  {
    if r.profile.Some? && r.launch.None? {
      var profile := ProfileToLaunch(cfg, step.action.guestId, r.profile.value, world.freshId(r.world));
      assert !world.launch(r.world, profile).1.LaunchEscapes?;
    }
  }

  lemma StopReports<W(!new)>(world: World<W>, cfg: Config, step: Step, r: Run<W>)
    requires NeverEscapes(world)
    ensures PerformStop(world, cfg, step, r).1.Some?
  {
    if r.launch.Some? {
      var (w, journal) :=
        if cfg.debug then world.journal(r.world, r.launch.value.profile) else (r.world, JournalRead);
      assert !journal.JournalEscapes? && !world.stop(w, r.launch.value).1.StopEscapes?;
    }
  }

  lemma TalkReports<W(!new)>(world: World<W>, step: Step, r: Run<W>)
    requires NeverEscapes(world) && r.launch.Some? && (step.action.Guest? || step.action.GuestPull?)
    ensures TalkToGuest(world, step, r).1.Some?
  {
    var p := r.launch.value.profile;
    assert step.action.Guest? ==> !world.guest(r.world, p, step).1.GuestEscapes?;
    assert step.action.GuestPull? ==> !world.pull(r.world, p, step).1.PullEscapes?;
  }

  lemma GuestReports<W(!new)>(world: World<W>, step: Step, r: Run<W>)
    requires NeverEscapes(world) && (step.action.Guest? || step.action.GuestPull?)
    ensures PerformGuest(world, step, r).1.Some?
  {
    hide TalkToGuest;
    if r.profile.Some? {
      if r.launch.Some? {
        TalkReports(world, step, r);
      } else {
        assert !world.launch(r.world, r.profile.value).1.LaunchEscapes?;
        var (r', o) := Launching(world, r.profile.value, r);
        if o.Started? {
          TalkReports(world, step, r');
        }
      }
    }
  }

  lemma PerformReports<W(!new)>(world: World<W>, cfg: Config, step: Step, r: Run<W>)
    requires NeverEscapes(world)
    ensures Perform(world, cfg, step, r).1.Some?
  {
    hide PerformLaunch, PerformStop, PerformGuest;
    match step.action {
      case VmLaunch(_) => LaunchReports(world, cfg, step, r);
      case VmStop => StopReports(world, cfg, step, r);
      case Host(_) => assert !world.host(r.world, step).1.HostEscapes?;
      case Callable(handler) =>
        var view := View(r.profile, r.launch, r.results, cfg.allowHostChanges);
        assert !world.call(r.world, handler, view).1.verdict.CallEscapes?;
      case Guest(_) => GuestReports(world, step, r);
      case GuestPull(_, _) => GuestReports(world, step, r);
    }
  }
}
