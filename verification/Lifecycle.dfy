/** Which guests are alive, over every run: read off the history alone. */
module Lifecycle {
  import opened Models
  import opened VmProfiles
  import opened Runner
  import opened Executor

  /** The QEMU processes left by a history, each named by its launch's position. */
  function Alive(t: seq<Event>): set<nat>
    decreases |t|
  {
    if t == [] then {} else Effect(t[|t| - 1], |t| - 1, Alive(t[..|t| - 1]))
  }

  /** What the event at a position does to the processes alive before it. */
  function Effect(e: Event, position: nat, before: set<nat>): set<nat> {
    if e.Launched? && LeavesProcess(e.outcome) then before + {position}
    else if e.StopTried? && e.stopped then before - {e.handle}
    else before
  }

  predicate LeavesProcess(o: LaunchOutcome) {
    match o
    case Started(_, _) => true
    case Refused(_) => false
    case LaunchEscapes(processLeft) => processLeft
  }

  /** What an event may do to the processes then alive: launch only when there is
      none, stop and address only the one there is, and talk to a guest only when it
      booted, through the profile it was launched with. */
  predicate Proper(e: Event, before: seq<Event>) {
    match e
    case Launched(_, _) => Alive(before) == {}
    case StopTried(h, _) => Alive(before) == {h}
    case GuestTalked(h, p, _) =>
      && Alive(before) == {h}
      && h < |before| && before[h].Launched?
      && before[h].profile == p && before[h].outcome.Started? && before[h].outcome.ok
    case _ => true
  }

  predicate Disciplined(t: seq<Event>) {
    forall k | 0 <= k < |t| :: Proper(t[k], t[..k])
  }

  // ── The meaning of Alive, without its recursion ─────────────────

  ghost predicate StoppedLater(t: seq<Event>, h: nat) {
    exists k | h < k < |t| :: t[k] == StopTried(h, true)
  }

  /** A process is alive exactly when its launch left one and no stop of it has
      succeeded since. */
  lemma {:induction false} AliveMeans(t: seq<Event>, h: nat)
    requires Disciplined(t)
    ensures h in Alive(t) <==> h < |t| && t[h].Launched? && LeavesProcess(t[h].outcome) && !StoppedLater(t, h)
    decreases |t|
  {
    if t != [] {
      var n := |t| - 1;
      var init := t[..n];
      DisciplinedPrefix(t, n);
      AliveMeans(init, h);
      assert forall k | 0 <= k < n :: init[k] == t[k];
      if StoppedLater(init, h) {
        var k :| h < k < |init| && init[k] == StopTried(h, true);
        assert t[k] == StopTried(h, true);
      }
      if StoppedLater(t, h) && !StoppedLater(init, h) {
        var k :| h < k < |t| && t[k] == StopTried(h, true);
        assert k == n;
      }
      if t[n] == StopTried(h, true) {
        assert Proper(t[n], t[..n]);
      }
    }
  }

  lemma DisciplinedPrefix(t: seq<Event>, n: nat)
    requires Disciplined(t) && n <= |t|
    ensures Disciplined(t[..n])
  {
    forall k | 0 <= k < n ensures Proper(t[..n][k], t[..n][..k]) {
      assert t[..n][..k] == t[..k];
      assert Proper(t[k], t[..k]);
    }
  }

  lemma DisciplinedAppend(t: seq<Event>, e: Event)
    requires Disciplined(t) && Proper(e, t)
    ensures Disciplined(t + [e])
    ensures Alive(t + [e]) == Effect(e, |t|, Alive(t))
  {
    hide Proper;
    var u := t + [e];
    assert u[..|u| - 1] == t;
    forall k | 0 <= k < |u| ensures Proper(u[k], u[..k]) {
      assert u[..k] == t[..k];
      assert k == |t| ==> t[..k] == t;
    }
  }

  /** A disciplined history never has two processes alive at once. */
  lemma {:induction false} AtMostOneAlive(t: seq<Event>, k: nat)
    requires Disciplined(t) && k <= |t|
    ensures |Alive(t[..k])| <= 1
  {
    if k > 0 {
      assert t[..k][..k - 1] == t[..k - 1];
      assert Proper(t[k - 1], t[..k - 1]);
      AtMostOneAlive(t, k - 1);
    }
  }

  // ── Every run is disciplined ────────────────────────────────────

  predicate EndsInLeak(t: seq<Event>) {
    t != [] && t[|t| - 1].Launched? && t[|t| - 1].outcome == LaunchEscapes(true)
  }

  predicate EndsInFailedStop(t: seq<Event>) {
    t != [] && t[|t| - 1].StopTried? && !t[|t| - 1].stopped
  }

  /** The launch the loop holds is the process that is alive, and was launched with
      the profile it carries; only a launch that raised late leaves one unheld. */
  predicate Held<W>(r: Run<W>) {
    && Disciplined(r.trace)
    && (r.launch.Some? ==>
          var l := r.launch.value;
          && Alive(r.trace) == {l.handle}
          && l.handle < |r.trace|
          && r.trace[l.handle] == Launched(l.profile, Started(l.ok, l.message)))
    && (r.launch.None? && !EndsInLeak(r.trace) ==> Alive(r.trace) == {} && !EndsInFailedStop(r.trace))
    && (r.launch.None? && EndsInLeak(r.trace) ==> Alive(r.trace) != {})
    && (EndsInLeak(r.trace) ==> r.status.Escaped? && r.launch.None?)
  }

  lemma LaunchingHolds<W>(world: World<W>, profile: VMProfile, r: Run<W>)
    requires Held(r) && r.launch.None? && r.status.Running?
    ensures var (r', o) := Launching(world, profile, r);
      Held(if o.LaunchEscapes? then r'.(status := Escaped) else r')
  {
    var (r', o) := Launching(world, profile, r);
    DisciplinedAppend(r.trace, Launched(profile, o));
  }

  lemma TalkingHolds<W>(world: World<W>, step: Step, r: Run<W>)
    requires Held(r) && r.launch.Some? && r.status.Running?
    requires step.action.Guest? || step.action.GuestPull?
    ensures Held(TalkToGuest(world, step, r).0)
  {
    hide Disciplined, GuestResult, PullResult;
    var l := r.launch.value;
    if l.ok {
      DisciplinedAppend(r.trace, GuestTalked(l.handle, l.profile, step));
    }
  }

  /** A stop that works ends the one process; one that does not leaves it held. */
  lemma StopEventHolds<W>(r: Run<W>, r': Run<W>, stopped: bool)
    requires Held(r) && r.launch.Some? && r.status.Running?
    requires r'.launch == if stopped then None else r.launch
    requires r'.trace == r.trace + [StopTried(r.launch.value.handle, stopped)]
    ensures Held(r')
  {
    DisciplinedAppend(r.trace, StopTried(r.launch.value.handle, stopped));
  }

  lemma StopHolds<W>(world: World<W>, cfg: Config, step: Step, r: Run<W>)
    requires Held(r) && r.status.Running?
    ensures var (r', sr) := PerformStop(world, cfg, step, r);
      Held(if sr.None? then r'.(status := Escaped) else r')
  {
    var (r', sr) := PerformStop(world, cfg, step, r);
    if r'.trace != r.trace {
      var e := r'.trace[|r.trace|];
      StopEventHolds(r, if sr.None? then r'.(status := Escaped) else r', e.stopped);
    }
  }

  lemma LaunchHolds<W>(world: World<W>, cfg: Config, step: Step, r: Run<W>)
    requires Held(r) && r.status.Running? && step.action.VmLaunch?
    ensures var (r', sr) := PerformLaunch(world, cfg, step, r);
      Held(if sr.None? then r'.(status := Escaped) else r')
  {
    if r.profile.Some? && r.launch.None? {
      var profile := ProfileToLaunch(cfg, step.action.guestId, r.profile.value, world.freshId(r.world));
      LaunchingHolds(world, profile, r.(profile := Some(profile)));
    }
  }

  /** An event that involves no guest changes nothing here. */
  lemma QuietEventHolds<W>(r: Run<W>, e: Event, r': Run<W>)
    requires Held(r) && r.status.Running? && (e.HostRan? || e.HandlerCalled?)
    requires r'.launch == r.launch && r'.trace == r.trace + [e]
    ensures Held(r')
  {
    DisciplinedAppend(r.trace, e);
  }

  lemma PerformHolds<W>(world: World<W>, cfg: Config, step: Step, r: Run<W>)
    requires Held(r) && r.status.Running?
    ensures var (r', sr) := Perform(world, cfg, step, r);
      Held(if sr.None? then r'.(status := Escaped) else r')
  {
    var r' := Perform(world, cfg, step, r).0;
    match step.action {
      case VmLaunch(_) => LaunchHolds(world, cfg, step, r);
      case VmStop => StopHolds(world, cfg, step, r);
      case Host(_) => QuietEventHolds(r, HostRan(step), r');
      case Callable(handler) =>
        var view := View(r.profile, r.launch, r.results, cfg.allowHostChanges);
        QuietEventHolds(r, HandlerCalled(handler, view, r'.profile), r');
      case Guest(_) => GuestHolds(world, step, r);
      case GuestPull(_, _) => GuestHolds(world, step, r);
    }
  }

  lemma GuestHolds<W>(world: World<W>, step: Step, r: Run<W>)
    requires Held(r) && r.status.Running?
    requires step.action.Guest? || step.action.GuestPull?
    ensures var (r', sr) := PerformGuest(world, step, r);
      Held(if sr.None? then r'.(status := Escaped) else r')
  {
    if r.profile.Some? {
      if r.launch.Some? {
        TalkingHolds(world, step, r);
      } else {
        LaunchingHolds(world, r.profile.value, r);
        var (r', o) := Launching(world, r.profile.value, r);
        if o.Started? {
          TalkingHolds(world, step, r');
        }
      }
    }
  }

  lemma AdvanceHolds<W>(world: World<W>, cfg: Config, steps: seq<Step>, r: Run<W>)
    requires Held(r) && r.status.Running? && |r.results| < |steps|
    ensures Held(Advance(world, cfg, steps, r))
  {
    hide Perform, Disciplined, Alive;
    PerformHolds(world, cfg, steps[|r.results|], r);
  }

  lemma {:induction false} EveryRunHolds<W>(world: World<W>, cfg: Config, plan: Plan, w: W, n: nat)
    ensures Held(After(world, cfg, plan, w, n))
  {
    hide Advance;
    if n > 0 {
      EveryRunHolds(world, cfg, plan, w, n - 1);
      var r := After(world, cfg, plan, w, n - 1);
      if r.status.Running? && |r.results| < |plan.steps| {
        AdvanceHolds(world, cfg, plan.steps, r);
      }
    }
  }

  // ── The theorems ────────────────────────────────────────────────

  /** For every plan and every world: at most one guest is alive at any moment; no
      event addresses a guest that is not alive; and when `execute_test` returns or
      raises a guest is left alive exactly when the last thing that happened was a
      launch that raised after starting QEMU, or a stop in `finally` that raised. */
  lemma GuestLifecycle<W>(world: World<W>, cfg: Config, plan: Plan, w: W)
    ensures var end := Execute(world, cfg, plan, w);
      && Disciplined(end.trace)
      && (forall k | 0 <= k <= |end.trace| :: |Alive(end.trace[..k])| <= 1)
      && (Alive(end.trace) != {} <==> EndsInLeak(end.trace) || EndsInFailedStop(end.trace))
      && (Alive(end.trace) != {} ==> end.verdict.Raised?)
  {
    hide After, Alive, Disciplined;
    var r := After(world, cfg, plan, w, |plan.steps|);
    EveryRunHolds(world, cfg, plan, w, |plan.steps|);
    var end := Execute(world, cfg, plan, w);
    if r.launch.Some? {
      DisciplinedAppend(r.trace, StopTried(r.launch.value.handle, true));
      DisciplinedAppend(r.trace, StopTried(r.launch.value.handle, false));
    }
    forall k | 0 <= k <= |end.trace| ensures |Alive(end.trace[..k])| <= 1 {
      AtMostOneAlive(end.trace, k);
    }
  }

  /** Every test that returns a result has stopped every guest it started. */
  lemma EveryGuestStopped<W>(world: World<W>, cfg: Config, plan: Plan, w: W)
    requires Execute(world, cfg, plan, w).verdict.Completed?
    ensures var t := Execute(world, cfg, plan, w).trace;
      forall h | 0 <= h < |t| && t[h].Launched? && t[h].outcome.Started? :: StoppedLater(t, h)
  {
    GuestLifecycle(world, cfg, plan, w);
    var t := Execute(world, cfg, plan, w).trace;
    forall h | 0 <= h < |t| && t[h].Launched? && t[h].outcome.Started? ensures StoppedLater(t, h) {
      AliveMeans(t, h);
    }
  }

  // ── A condition on the world ────────────────────────────────────

  /** No launch raises after starting QEMU but as VMProfileError, and every stop works. */
  ghost predicate Tame<W(!new)>(world: World<W>) {
    && (forall w, p :: world.launch(w, p).1 != LaunchEscapes(true))
    && (forall w, l :: world.stop(w, l).1.Stopped?)
  }

  predicate TameEvent(e: Event) {
    (e.Launched? ==> e.outcome != LaunchEscapes(true)) && (e.StopTried? ==> e.stopped)
  }

  predicate TameHistory(t: seq<Event>) {
    forall k | 0 <= k < |t| :: TameEvent(t[k])
  }

  lemma LaunchingIsTame<W(!new)>(world: World<W>, profile: VMProfile, r: Run<W>)
    requires Tame(world) && TameHistory(r.trace)
    ensures TameHistory(Launching(world, profile, r).0.trace)
  {
    assert world.launch(r.world, profile).1 != LaunchEscapes(true);
  }

  lemma StopIsTame<W(!new)>(world: World<W>, cfg: Config, step: Step, r: Run<W>)
    requires Tame(world) && TameHistory(r.trace)
    ensures TameHistory(PerformStop(world, cfg, step, r).0.trace)
  {
    hide StopResult;
    if r.launch.Some? {
      var w := if cfg.debug then world.journal(r.world, r.launch.value.profile).0 else r.world;
      assert world.stop(w, r.launch.value).1.Stopped?;
    }
  }

  lemma TalkIsTame<W>(world: World<W>, step: Step, r: Run<W>)
    requires TameHistory(r.trace) && r.launch.Some?
    requires step.action.Guest? || step.action.GuestPull?
    ensures TameHistory(TalkToGuest(world, step, r).0.trace)
  {
    hide GuestResult, PullResult;
  }

  lemma GuestIsTame<W(!new)>(world: World<W>, step: Step, r: Run<W>)
    requires Tame(world) && TameHistory(r.trace)
    requires step.action.Guest? || step.action.GuestPull?
    ensures TameHistory(PerformGuest(world, step, r).0.trace)
  {
    hide Tame, TameHistory, Launching, TalkToGuest;
    if r.profile.Some? {
      if r.launch.Some? {
        TalkIsTame(world, step, r);
      } else {
        LaunchingIsTame(world, r.profile.value, r);
        var (r', o) := Launching(world, r.profile.value, r);
        if o.Started? {
          StartedIsHeld(world, r.profile.value, r);
          TalkIsTame(world, step, r');
        }
      }
    }
  }

  lemma StartedIsHeld<W>(world: World<W>, profile: VMProfile, r: Run<W>)
    ensures var (r', o) := Launching(world, profile, r); o.Started? ==> r'.launch.Some?
  {
  }

  lemma PerformIsTame<W(!new)>(world: World<W>, cfg: Config, step: Step, r: Run<W>)
    requires Tame(world) && TameHistory(r.trace)
    ensures TameHistory(Perform(world, cfg, step, r).0.trace)
  {
    hide Tame, PerformStop, PerformGuest, Launching, HostResult, LaunchResult, CallResult;
    match step.action {
      case VmLaunch(_) =>
        if r.profile.Some? && r.launch.None? {
          var profile := ProfileToLaunch(cfg, step.action.guestId, r.profile.value, world.freshId(r.world));
          LaunchingIsTame(world, profile, r.(profile := Some(profile)));
        }
      case VmStop => StopIsTame(world, cfg, step, r);
      case Guest(_) => GuestIsTame(world, step, r);
      case GuestPull(_, _) => GuestIsTame(world, step, r);
      case _ =>
    }
  }

  lemma AdvanceIsTame<W(!new)>(world: World<W>, cfg: Config, steps: seq<Step>, r: Run<W>)
    requires Tame(world) && TameHistory(r.trace) && |r.results| < |steps|
    ensures TameHistory(Advance(world, cfg, steps, r).trace)
  {
    hide Perform, Tame, TameHistory;
    PerformIsTame(world, cfg, steps[|r.results|], r);
  }

  lemma {:induction false} EveryRunIsTame<W(!new)>(world: World<W>, cfg: Config, plan: Plan, w: W, n: nat)
    requires Tame(world)
    ensures TameHistory(After(world, cfg, plan, w, n).trace)
  {
    hide Advance, Tame;
    if n > 0 {
      EveryRunIsTame(world, cfg, plan, w, n - 1);
      var r := After(world, cfg, plan, w, n - 1);
      if r.status.Running? && |r.results| < |plan.steps| {
        AdvanceIsTame(world, cfg, plan.steps, r);
      }
    }
  }

  /** In such a world no test leaves a guest behind, whether it returns or raises. */
  lemma TameWorldsLeaveNoGuest<W(!new)>(world: World<W>, cfg: Config, plan: Plan, w: W)
    requires Tame(world)
    ensures Alive(Execute(world, cfg, plan, w).trace) == {}
  {
    hide After, Alive, Disciplined;
    EveryRunIsTame(world, cfg, plan, w, |plan.steps|);
    var r, t := After(world, cfg, plan, w, |plan.steps|), Execute(world, cfg, plan, w).trace;
    if r.launch.Some? {
      assert world.stop(r.world, r.launch.value).1.Stopped?;
    }
    assert t != [] ==> TameEvent(t[|t| - 1]);
    GuestLifecycle(world, cfg, plan, w);
  }

  /** A world in which everything passes except as told about launches and stops. */
  function FixedWorld(launch: LaunchOutcome, stop: StopOutcome): World<()> {
    World(
      (w: (), s: Step) => (w, HostExited(0, "", "")),
      (w: (), p: VMProfile) => (w, launch),
      (w: (), l: Launch) => (w, stop),
      (w: (), p: VMProfile, s: Step) => (w, GuestExited(0, "", "")),
      (w: (), p: VMProfile, s: Step) => (w, Pulled),
      (w: (), p: VMProfile) => (w, JournalRead),
      (w: (), h: string, v: View) => (w, CallOutcome(v.profile, Returned(0, "", ""))),
      (w: ()) => "uuid")
  }

  /** A plan that does nothing but launch a guest. */
  function LaunchOnly(declared: VMProfile): Plan {
    Plan([Step("launch", Required, VmLaunch(""), ExitCode(0))], declared, true)
  }

  /** Both ways of leaving a guest behind do happen. */
  lemma GuestsCanBeLeft(cfg: Config, declared: VMProfile)
    ensures Alive(Execute(FixedWorld(LaunchEscapes(true), Stopped), cfg, LaunchOnly(declared), ()).trace) == {0}
    ensures Alive(Execute(FixedWorld(Started(true, ""), StopRefused("")), cfg, LaunchOnly(declared), ()).trace) == {0}
  {
    hide After, Finish, Alive, FixedWorld;
    LateRaiseLeaves(cfg, declared);
    RefusedStopLeaves(cfg, declared);
  }

  lemma LateRaiseLeaves(cfg: Config, declared: VMProfile)
    ensures Alive(Execute(FixedWorld(LaunchEscapes(true), Stopped), cfg, LaunchOnly(declared), ()).trace) == {0}
  {
    hide Alive;
    var world, plan := FixedWorld(LaunchEscapes(true), Stopped), LaunchOnly(declared);
    assert After(world, cfg, plan, (), 1) == Advance(world, cfg, plan.steps, After(world, cfg, plan, (), 0));
    var t := Execute(world, cfg, plan, ()).trace;
    assert t == [t[0]] && t[0].Launched? && t[0].outcome == LaunchEscapes(true);
    AliveAfterLaunch(t[0]);
  }

  lemma AliveAfterLaunch(e: Event)
    requires e.Launched? && LeavesProcess(e.outcome)
    ensures Alive([e]) == {0} && Alive([e, StopTried(0, false)]) == {0}
  {
    assert [e][..0] == [] && [e, StopTried(0, false)][..1] == [e];
  }

  lemma RefusedStopLeaves(cfg: Config, declared: VMProfile)
    ensures Alive(Execute(FixedWorld(Started(true, ""), StopRefused("")), cfg, LaunchOnly(declared), ()).trace) == {0}
  {
    hide Alive;
    var world, plan := FixedWorld(Started(true, ""), StopRefused("")), LaunchOnly(declared);
    assert After(world, cfg, plan, (), 1) == Advance(world, cfg, plan.steps, After(world, cfg, plan, (), 0));
    var t := Execute(world, cfg, plan, ()).trace;
    assert t == [t[0], StopTried(0, false)] && t[0].Launched? && t[0].outcome == Started(true, "");
    AliveAfterLaunch(t[0]);
  }
}
