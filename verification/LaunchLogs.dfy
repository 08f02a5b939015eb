/** Which launches of a debug run write the same log files. */
module LaunchLogs {
  import opened Models
  import opened VmProfiles
  import opened Runner
  import opened Executor
  import ShippedPlans
  import Verdicts

  // ── Launches and their logs ─────────────────────────────────────

  /** Turn n is a launch step that does launch. */
  predicate LaunchesAt<W>(world: World<W>, cfg: Config, plan: Plan, w: W, n: nat) {
    && n < |plan.steps| && plan.steps[n].action.VmLaunch?
    && var r := After(world, cfg, plan, w, n); r.status.Running? && r.profile.Some? && r.launch.None?
  }

  /** The profile it launches. */
  function LaunchedWith<W>(world: World<W>, cfg: Config, plan: Plan, w: W, n: nat): VMProfile
    requires LaunchesAt(world, cfg, plan, w, n)
  {
    var r := After(world, cfg, plan, w, n);
    ProfileToLaunch(cfg, plan.steps[n].action.guestId, r.profile.value, world.freshId(r.world))
  }

  predicate SameLogs(p: VMProfile, q: VMProfile) {
    p.guestId == q.guestId && p.guestErrorLog == q.guestErrorLog && p.guestBootLog == q.guestBootLog
  }

  /** The launch of turn n, in the history. */
  lemma LaunchIsInHistory<W>(world: World<W>, cfg: Config, plan: Plan, w: W, n: nat)
    requires LaunchesAt(world, cfg, plan, w, n)
    ensures var t, k := Execute(world, cfg, plan, w).trace, |After(world, cfg, plan, w, n).trace|;
      k < |t| && t[k].Launched? && t[k].profile == LaunchedWith(world, cfg, plan, w, n)
  {
    hide Advance;
    var r, r' := After(world, cfg, plan, w, n), After(world, cfg, plan, w, n + 1);
    Verdicts.EveryRunIsWellRecorded(world, cfg, plan, w, n);
    LaunchTurn(world, cfg, plan.steps, r);
    Verdicts.RunsGrow(world, cfg, plan, w, n + 1, |plan.steps|);
    assert r'.trace <= Execute(world, cfg, plan, w).trace;
  }

  lemma LaunchTurn<W>(world: World<W>, cfg: Config, steps: seq<Step>, r: Run<W>)
    requires |r.results| < |steps| && steps[|r.results|].action.VmLaunch? && r.profile.Some? && r.launch.None?
    ensures var r', step := Advance(world, cfg, steps, r), steps[|r.results|];
      var p := ProfileToLaunch(cfg, step.action.guestId, r.profile.value, world.freshId(r.world));
      && r'.profile == Some(p) && |r'.trace| == |r.trace| + 1
      && r'.trace[|r.trace|].Launched? && r'.trace[|r.trace|].profile == p
  {
    hide LaunchResult, ProfileToLaunch;
  }

  // ── What happens between two launches ───────────────────────────

  /** No handler changes the guest id or the log paths. */
  ghost predicate KeepsLogs<W(!new)>(world: World<W>) {
    forall w, h, v :: var after := world.call(w, h, v).1.profile;
      v.profile.Some? ==> after.Some? && SameLogs(after.value, v.profile.value)
  }

  ghost predicate MakesIds<W(!new)>(world: World<W>) {
    forall w :: world.freshId(w) != ""
  }

  predicate Carries<W>(r: Run<W>, p: VMProfile) {
    r.profile.Some? && SameLogs(r.profile.value, p)
  }

  lemma PerformKeepsLogs<W(!new)>(world: World<W>, cfg: Config, step: Step, r: Run<W>, p: VMProfile)
    requires KeepsLogs(world) && Carries(r, p) && !step.action.VmLaunch?
    ensures Carries(Perform(world, cfg, step, r).0, p)
  {
    hide HostResult, CallResult, GuestResult, PullResult, StopResult;
    if step.action.Callable? {
      var view := View(r.profile, r.launch, r.results, cfg.allowHostChanges);
      var after := world.call(r.world, step.action.handler, view).1.profile;
      assert after.Some? && SameLogs(after.value, view.profile.value);
    }
  }

  lemma AdvanceKeepsLogs<W(!new)>(world: World<W>, cfg: Config, steps: seq<Step>, r: Run<W>, p: VMProfile)
    requires KeepsLogs(world) && Carries(r, p)
    requires |r.results| < |steps| && !steps[|r.results|].action.VmLaunch?
    ensures Carries(Advance(world, cfg, steps, r), p)
  {
    hide Perform, KeepsLogs;
    PerformKeepsLogs(world, cfg, steps[|r.results|], r, p);
  }

  /** No launch step lies between. */
  predicate NoLaunchBetween(steps: seq<Step>, i: nat, j: nat) {
    i < j <= |steps| && forall n | i < n < j :: !steps[n].action.VmLaunch?
  }

  lemma {:induction false} LogsLast<W(!new)>(world: World<W>, cfg: Config, plan: Plan, w: W, i: nat, j: nat)
    requires KeepsLogs(world) && LaunchesAt(world, cfg, plan, w, i) && NoLaunchBetween(plan.steps, i, j)
    ensures Carries(After(world, cfg, plan, w, j), LaunchedWith(world, cfg, plan, w, i))
    decreases j - i
  {
    hide Advance, KeepsLogs;
    Verdicts.EveryRunIsWellRecorded(world, cfg, plan, w, j - 1);
    var r := After(world, cfg, plan, w, j - 1);
    if j == i + 1 {
      LaunchTurn(world, cfg, plan.steps, r);
    } else {
      LogsLast(world, cfg, plan, w, i, j - 1);
      if r.status.Running? {
        AdvanceKeepsLogs(world, cfg, plan.steps, r, LaunchedWith(world, cfg, plan, w, i));
      }
    }
  }

  // ── Who shares ──────────────────────────────────────────────────

  /** In a debug run whose handlers leave ids and paths alone, two launch steps with no
      launch step between them share id and log files exactly when the later one has no
      id of its own, or the same one. */
  lemma LogsAreSharedIff<W(!new)>(world: World<W>, cfg: Config, plan: Plan, w: W, i: nat, j: nat)
    requires KeepsLogs(world) && MakesIds(world) && cfg.debug
    requires LaunchesAt(world, cfg, plan, w, i) && LaunchesAt(world, cfg, plan, w, j)
    requires NoLaunchBetween(plan.steps, i, j)
    ensures var p := LaunchedWith(world, cfg, plan, w, i);
      SameLogs(p, LaunchedWith(world, cfg, plan, w, j))
      <==> plan.steps[j].action.guestId == "" || Some(plan.steps[j].action.guestId) == p.guestId
  {
    hide After, KeepsLogs;
    LogsLast(world, cfg, plan, w, i, j);
    assert world.freshId(After(world, cfg, plan, w, i).world) != "";
  }

  /** A step's own guest id reaches the launch exactly in debug mode, or if the context's
      profile has the same one. */
  lemma StepIdReachesLaunchIff<W>(world: World<W>, cfg: Config, plan: Plan, w: W, n: nat)
    requires LaunchesAt(world, cfg, plan, w, n) && plan.steps[n].action.guestId != ""
    ensures LaunchedWith(world, cfg, plan, w, n).guestId == Some(plan.steps[n].action.guestId)
            <==> cfg.debug
                 || After(world, cfg, plan, w, n).profile.value.guestId == Some(plan.steps[n].action.guestId)
  {
  }

  /** Every passing debug run of the key derivation test launches its two guests with
      the same id, so that the second overwrites the logs of the first. */
  lemma KeyDerivationSharesLogs<W(!new)>(world: World<W>, cfg: Config, declared: VMProfile, w: W)
    requires KeepsLogs(world) && MakesIds(world) && cfg.debug
    requires var plan := Plan(ShippedPlans.FIRST_CVM + ShippedPlans.SECOND_CVM, declared, true);
      Execute(world, cfg, plan, w).verdict == Completed(Pass)
    ensures var plan := Plan(ShippedPlans.FIRST_CVM + ShippedPlans.SECOND_CVM, declared, true);
      var t := Execute(world, cfg, plan, w).trace;
      exists k, l :: 0 <= k < l < |t| && t[k].Launched? && t[l].Launched? && SameLogs(t[k].profile, t[l].profile)
  {
    hide After, KeepsLogs, MakesIds, Execute, Perform, LaunchedWith;
    var plan := Plan(ShippedPlans.FIRST_CVM + ShippedPlans.SECOND_CVM, declared, true);
    TwoLaunches();
    PassedLaunch(world, cfg, plan, w, 2);
    PassedLaunch(world, cfg, plan, w, 16);
    LogsAreSharedIff(world, cfg, plan, w, 2, 16);
    LaunchIsInHistory(world, cfg, plan, w, 2);
    LaunchIsInHistory(world, cfg, plan, w, 16);
    LaterIsLonger(world, cfg, plan, w, 2, 16);
  }

  lemma LaterIsLonger<W>(world: World<W>, cfg: Config, plan: Plan, w: W, i: nat, j: nat)
    requires LaunchesAt(world, cfg, plan, w, i) && i < j
    ensures |After(world, cfg, plan, w, i).trace| < |After(world, cfg, plan, w, j).trace|
  {
    hide Advance;
    Verdicts.EveryRunIsWellRecorded(world, cfg, plan, w, i);
    LaunchTurn(world, cfg, plan.steps, After(world, cfg, plan, w, i));
    Verdicts.RunsGrow(world, cfg, plan, w, i + 1, j);
  }

  lemma TwoLaunches()
    ensures var steps := ShippedPlans.FIRST_CVM + ShippedPlans.SECOND_CVM;
      && |steps| == 19 && steps[2].action == VmLaunch("") && steps[16].action == VmLaunch("")
      && steps[2].severity == Setup && steps[16].severity == Setup
      && steps[2].expected == ExitCode(0) && steps[16].expected == ExitCode(0)
      && NoLaunchBetween(steps, 2, 16)
  {
    var steps := ShippedPlans.FIRST_CVM + ShippedPlans.SECOND_CVM;
    assert steps[16] == ShippedPlans.SECOND_CVM[0] && steps[2] == ShippedPlans.FIRST_CVM[2];
    assert forall n | 0 <= n < 16 :: steps[n] == ShippedPlans.FIRST_CVM[n];
  }

  /** In a passing test a launch step that counts did launch. */
  lemma PassedLaunch<W>(world: World<W>, cfg: Config, plan: Plan, w: W, n: nat)
    requires Execute(world, cfg, plan, w).verdict == Completed(Pass)
    requires n < |plan.steps| && plan.steps[n].severity != Info && plan.steps[n].action.VmLaunch?
    ensures LaunchesAt(world, cfg, plan, w, n)
  {
    hide After, Execute;
    Verdicts.PassedTurn(world, cfg, plan, w, n);
  }
}
