/** What the config/commit test never does, on any machine. */
module TcbSafety {
  import opened Models
  import opened Executor
  import opened TcbVersions
  import opened SnphostTcb
  import opened Platforms
  import Verdicts

  // ── Order of the plan, in any world at all ──────────────────────

  /** No setup step in the range, so nothing there can end the test. */
  predicate NoSetup(steps: seq<Step>, lo: nat, hi: nat) {
    hi <= |steps| && forall n | lo <= n < hi :: steps[n].severity != Setup
  }

  /** The handler is that of step `at` and of no other. */
  predicate OnlyAt(steps: seq<Step>, handler: string, at: nat) {
    at < |steps| && forall n | 0 <= n < |steps| :: steps[n].action == Callable(handler) <==> n == at
  }

  lemma TcbStepsShape(lowered: TcbVersion)
    ensures var s := TcbSteps(lowered);
      && NoSetup(s, 1, 15) && s[15].severity == Setup && OnlyAt(s, Name(CommitCurrentTcb), 16)
      && s[0].action.Host? && s[0].expected == OK
      && s[1].action == Host(ConfigSet(lowered, 0))
      && s[8].action == Host(RESET_COMMAND) && s[14].action == Host(RESET_COMMAND)
      && forall n | 0 <= n < 8 :: s[n] != s[8]
  {
    CommitComesLast(CommandsFor(lowered));
    ResetIsNew(CommandsFor(lowered));
    SetupsAtTheEnds(CommandsFor(lowered));
  }

  lemma SetupsAtTheEnds(c: Commands)
    ensures var s := StepsWith(c);
      && NoSetup(s, 1, 15) && s[15].severity == Setup
      && s[0].action == Host(c.show) && s[0].expected == OK && s[1].action == Host(c.set')
      && s[8].action == Host(c.reset) && s[14].action == Host(c.reset)
  {
  }

  lemma CommitComesLast(c: Commands)
    ensures OnlyAt(StepsWith(c), Name(CommitCurrentTcb), 16)
  {
    forall h | Name(h) == Name(CommitCurrentTcb) ensures h == CommitCurrentTcb {
      NamesDiffer(h, CommitCurrentTcb);
    }
  }

  lemma ResetIsNew(c: Commands)
    ensures forall n | 0 <= n < 8 :: StepsWith(c)[n] != StepsWith(c)[8]
  {
    hide Name;
    var s := StepsWith(c);
    forall n | 0 <= n < 8 ensures s[n] != s[8] {
      if n == 0 {
        assert s[0].name[0] == 's' && s[8].name[0] == 'c';
      } else if n == 1 {
        assert s[1].name[7] == 's' && s[8].name[7] == 'r';
      } else {
        assert !s[n].action.Host?;
      }
    }
  }

  /** A host step that is reached runs its command, whatever comes of it. */
  lemma HostStepRuns<W>(world: World<W>, cfg: Config, steps: seq<Step>, r: Run<W>)
    requires |r.results| < |steps| && steps[|r.results|].action.Host?
    ensures Advance(world, cfg, steps, r).trace == r.trace + [HostRan(steps[|r.results|])]
  {
  }

  /** A run that is running after n turns was running before, one result a turn. */
  lemma WasRunning<W>(world: World<W>, cfg: Config, plan: Plan, w: W, k: nat, n: nat)
    requires k <= n <= |plan.steps| && After(world, cfg, plan, w, n).status.Running?
    ensures After(world, cfg, plan, w, k).status.Running? && |After(world, cfg, plan, w, k).results| == k
  {
    Verdicts.EveryRunIsWellRecorded(world, cfg, plan, w, k);
    if !After(world, cfg, plan, w, k).status.Running? {
      StaysPut(world, cfg, plan, w, k, n);
    }
  }

  /** What holds at the start and is kept by the turns before n holds at turn n. */
  lemma {:induction false} KeptUntil<W(!new)>(world: World<W>, cfg: Config, plan: Plan, w: W, n: nat,
                                              inv: Run<W> -> bool)
    requires n <= |plan.steps| && inv(Start(cfg, plan, w))
    requires forall r | inv(r) && r.status.Running? && |r.results| < n :: inv(Advance(world, cfg, plan.steps, r))
    ensures inv(After(world, cfg, plan, w, n))
  {
    hide Advance;
    if n > 0 {
      KeptUntil(world, cfg, plan, w, n - 1, inv);
      if After(world, cfg, plan, w, n - 1).status.Running? {
        WasRunning(world, cfg, plan, w, n - 1, n - 1);
      }
    }
  }

  /** A run reaches the end of a range without setup steps, or an exception escapes. */
  lemma {:induction false} RunsOn<W>(world: World<W>, cfg: Config, plan: Plan, w: W, lo: nat, n: nat)
    requires NoSetup(plan.steps, lo, n) && lo <= n
    requires After(world, cfg, plan, w, lo).status.Running?
    ensures var r := After(world, cfg, plan, w, n); r.status.Escaped? || (r.status.Running? && |r.results| == n)
    decreases n - lo
  {
    hide Advance;
    if n == lo {
      WasRunning(world, cfg, plan, w, n, n);
    } else {
      RunsOn(world, cfg, plan, w, lo, n - 1);
      var r := After(world, cfg, plan, w, n - 1);
      if r.status.Running? {
        NoHalt(world, cfg, plan.steps, r);
        if After(world, cfg, plan, w, n).status.Running? {
          WasRunning(world, cfg, plan, w, n, n);
        }
      }
    }
  }

  lemma NoHalt<W>(world: World<W>, cfg: Config, steps: seq<Step>, r: Run<W>)
    requires |r.results| < |steps| && r.status.Running? && steps[|r.results|].severity != Setup
    ensures !Advance(world, cfg, steps, r).status.Halted?
  {
  }

  /** Host step n ran, after everything the turns before it did. */
  ghost predicate RanInTurn<W>(world: World<W>, cfg: Config, plan: Plan, w: W, n: nat)
    requires n < |plan.steps|
  {
    After(world, cfg, plan, w, n).trace + [HostRan(plan.steps[n])] <= Execute(world, cfg, plan, w).trace
  }

  lemma HostTurn<W>(world: World<W>, cfg: Config, plan: Plan, w: W, n: nat)
    requires n < |plan.steps| && plan.steps[n].action.Host?
    requires After(world, cfg, plan, w, n).status.Running?
    ensures RanInTurn(world, cfg, plan, w, n)
  {
    WasRunning(world, cfg, plan, w, n, n);
    HostStepRuns(world, cfg, plan.steps, After(world, cfg, plan, w, n));
    Verdicts.RunsGrow(world, cfg, plan, w, n + 1, |plan.steps|);
  }

  predicate HostEventsFrom(steps: seq<Step>, t: seq<Event>) {
    forall k | 0 <= k < |t| && t[k].HostRan? :: t[k].hostStep in steps
  }

  lemma PerformHostEvents<W>(world: World<W>, cfg: Config, step: Step, r: Run<W>, before: seq<Step>)
    requires HostEventsFrom(before, r.trace)
    ensures HostEventsFrom(before + [step], Perform(world, cfg, step, r).0.trace)
  {
  }

  predicate HostEventsOf<W>(steps: seq<Step>, n: nat, r: Run<W>) {
    n <= |steps| && HostEventsFrom(steps[..n], r.trace)
  }

  lemma AdvanceHostEvents<W>(world: World<W>, cfg: Config, steps: seq<Step>, r: Run<W>)
    requires |r.results| < |steps| && HostEventsOf(steps, |r.results|, r)
    ensures HostEventsOf(steps, |r.results| + 1, Advance(world, cfg, steps, r))
  {
    var n := |r.results|;
    PerformHostEvents(world, cfg, steps[n], r, steps[..n]);
    assert steps[..n + 1] == steps[..n] + [steps[n]];
    AdvanceKeepsTrace(world, cfg, steps, r);
  }

  lemma AdvanceKeepsTrace<W>(world: World<W>, cfg: Config, steps: seq<Step>, r: Run<W>)
    requires |r.results| < |steps|
    ensures Advance(world, cfg, steps, r).trace == Perform(world, cfg, steps[|r.results|], r).0.trace
  {
  }

  lemma {:induction false} HostEventsAreOfEarlierSteps<W>(world: World<W>, cfg: Config, plan: Plan, w: W, n: nat)
    requires n <= |plan.steps|
    ensures HostEventsOf(plan.steps, n, After(world, cfg, plan, w, n))
  {
    hide Advance;
    if n > 0 {
      HostEventsAreOfEarlierSteps(world, cfg, plan, w, n - 1);
      var r := After(world, cfg, plan, w, n - 1);
      if r.status.Running? {
        WasRunning(world, cfg, plan, w, n - 1, n - 1);
        AdvanceHostEvents(world, cfg, plan.steps, r);
      } else {
        MoreSteps(plan.steps, n - 1, r);
      }
    }
  }

  lemma MoreSteps<W>(steps: seq<Step>, n: nat, r: Run<W>)
    requires n < |steps| && HostEventsOf(steps, n, r)
    ensures HostEventsOf(steps, n + 1, r)
  {
    assert steps[..n + 1] == steps[..n] + [steps[n]];
  }

  /** In every world: once `show tcb` has passed, `config set` runs; `config reset`
      then runs if and only if no exception escaped before its turn, that is, if eight
      steps left results (`TcbClean` says when that is); and a test that returns a
      result has run it twice by the time the commit gate can end the test. */
  lemma SetIsFollowedByReset<W>(world: World<W>, cfg: Config, plan: Plan, lowered: TcbVersion, w: W)
    requires plan.steps == TcbSteps(lowered) && After(world, cfg, plan, w, 1).status.Running?
    ensures RanInTurn(world, cfg, plan, w, 1)
    ensures HostRan(plan.steps[8]) in Execute(world, cfg, plan, w).trace
            <==> |Execute(world, cfg, plan, w).results| >= 8
    ensures |Execute(world, cfg, plan, w).results| >= 8 ==> RanInTurn(world, cfg, plan, w, 8)
    ensures Execute(world, cfg, plan, w).verdict.Completed? ==>
      RanInTurn(world, cfg, plan, w, 8) && RanInTurn(world, cfg, plan, w, 14)
  {
    hide Advance, StepsWith;
    TcbStepsShape(lowered);
    HostTurn(world, cfg, plan, w, 1);
    RunsOn(world, cfg, plan, w, 1, 8);
    if After(world, cfg, plan, w, 8).status.Running? {
      HostTurn(world, cfg, plan, w, 8);
      Verdicts.RunsGrow(world, cfg, plan, w, 8, |plan.steps|);
      var before := After(world, cfg, plan, w, 8).trace;
      assert HostRan(plan.steps[8]) == (before + [HostRan(plan.steps[8])])[|before|];
    } else {
      EscapedEarly(world, cfg, plan, w, 8);
    }
    if Execute(world, cfg, plan, w).verdict.Completed? {
      RunsOn(world, cfg, plan, w, 1, 14);
      if After(world, cfg, plan, w, 14).status.Escaped? {
        StaysPut(world, cfg, plan, w, 14, |plan.steps|);
      }
      WasRunning(world, cfg, plan, w, 8, 14);
      HostTurn(world, cfg, plan, w, 14);
    }
  }

  /** After an escape before turn n, step n left neither a result nor an event. */
  lemma EscapedEarly<W>(world: World<W>, cfg: Config, plan: Plan, w: W, n: nat)
    requires n < |plan.steps| && After(world, cfg, plan, w, n).status.Escaped?
    requires forall k | 0 <= k < n :: plan.steps[k] != plan.steps[n]
    ensures |Execute(world, cfg, plan, w).results| < n
    ensures HostRan(plan.steps[n]) !in Execute(world, cfg, plan, w).trace
  {
    StaysPut(world, cfg, plan, w, n, |plan.steps|);
    Verdicts.EveryRunIsWellRecorded(world, cfg, plan, w, n);
    HostEventsAreOfEarlierSteps(world, cfg, plan, w, n);
    assert plan.steps[n] !in plan.steps[..n];
  }

  /** In every world, the commit handler is called only after the gate has passed. */
  lemma CommitOnlyAfterGate<W>(world: World<W>, cfg: Config, plan: Plan, lowered: TcbVersion, w: W, k: nat)
    requires plan.steps == TcbSteps(lowered)
    requires var t := Execute(world, cfg, plan, w).trace;
      k < |t| && t[k].HandlerCalled? && t[k].handler == Name(CommitCurrentTcb)
    ensures var end := Execute(world, cfg, plan, w);
      |end.results| > 15 && end.results[15].result == Pass && end.trace[k].view.results == end.results[..16]
  {
    hide StepsWith, After;
    TcbStepsShape(lowered);
    HandlerOfItsTurn(world, cfg, plan, w, k, Name(CommitCurrentTcb), 16);
    Verdicts.EveryRunIsWellRecorded(world, cfg, plan, w, |plan.steps|);
  }

  /** A handler that only step n has was called on the results of the n steps before,
      none of them a failed setup step. */
  lemma HandlerOfItsTurn<W>(world: World<W>, cfg: Config, plan: Plan, w: W, k: nat, handler: string, n: nat)
    requires OnlyAt(plan.steps, handler, n)
    requires var t := Execute(world, cfg, plan, w).trace;
      k < |t| && t[k].HandlerCalled? && t[k].handler == handler
    ensures var end := Execute(world, cfg, plan, w);
      && n < |plan.steps| && n <= |end.results| && end.trace[k].view.results == end.results[..n]
      && forall j | 0 <= j < n :: end.results[j].result != Skip && !Verdicts.SetupFailed(end.results[j])
  {
    Verdicts.HandlersSeeEarlierResults(world, cfg, plan, w);
    var end := Execute(world, cfg, plan, w);
    assert Verdicts.SawItsPast(plan.steps, end.results, end.trace[k]);
  }
}
