/** Running a test with `--debug` and without. */
module DebugRuns {
  import opened Models
  import opened VmProfiles
  import opened Runner
  import opened Executor

  // ── Equal but for what debug mode writes ────────────────────────

  predicate SameProfile(p: Option<VMProfile>, q: Option<VMProfile>) {
    match (p, q)
    case (Some(a), Some(b)) => SameGuest(a, b)
    case (None, None) => true
    case _ => false
  }

  predicate SameLaunch(l: Launch, m: Launch) {
    l.handle == m.handle && SameGuest(l.profile, m.profile) && l.ok == m.ok && l.message == m.message
  }

  predicate SameHeld(l: Option<Launch>, m: Option<Launch>) {
    match (l, m)
    case (Some(a), Some(b)) => SameLaunch(a, b)
    case (None, None) => true
    case _ => false
  }

  predicate SameView(v: View, u: View) {
    && SameProfile(v.profile, u.profile) && SameHeld(v.launch, u.launch)
    && v.results == u.results && v.allowHostChanges == u.allowHostChanges
  }

  predicate SameEvent(e: Event, f: Event) {
    match (e, f)
    case (Launched(p, o), Launched(q, o')) => SameGuest(p, q) && o == o'
    case (GuestTalked(h, p, s), GuestTalked(h', q, s')) => h == h' && SameGuest(p, q) && s == s'
    case (HandlerCalled(n, v, a), HandlerCalled(n', u, b)) => n == n' && SameView(v, u) && SameProfile(a, b)
    case (HostRan(s), HostRan(s')) => s == s'
    case (StopTried(h, done), StopTried(h', done')) => h == h' && done == done'
    case _ => false
  }

  predicate SameHistory(t: seq<Event>, u: seq<Event>) {
    |t| == |u| && forall k | 0 <= k < |t| :: SameEvent(t[k], u[k])
  }

  // ── Worlds that cannot tell ─────────────────────────────────────

  /** QEMU, the guest and the handlers answer alike for profiles that differ in the
      debug fields only, and reading the journal neither changes anything nor fails
      in a way the harness does not catch. */
  ghost predicate Blind<W(!new)>(world: World<W>) {
    && (forall w, p, q | SameGuest(p, q) :: world.launch(w, p) == world.launch(w, q))
    && (forall w, l, m | SameLaunch(l, m) :: world.stop(w, l) == world.stop(w, m))
    && (forall w, p, q, s | SameGuest(p, q) :: world.guest(w, p, s) == world.guest(w, q, s))
    && (forall w, p, q, s | SameGuest(p, q) :: world.pull(w, p, s) == world.pull(w, q, s))
    && (forall w, h, v, u | SameView(v, u) :: SameCall(world.call(w, h, v), world.call(w, h, u)))
    && (forall w, p :: world.journal(w, p).0 == w && !world.journal(w, p).1.JournalEscapes?)
  }

  predicate SameCall<W(==)>(a: (W, CallOutcome), b: (W, CallOutcome)) {
    a.0 == b.0 && a.1.verdict == b.1.verdict && SameProfile(a.1.profile, b.1.profile)
  }

  predicate SameRun<W(==)>(r: Run<W>, q: Run<W>) {
    && r.world == q.world && SameProfile(r.profile, q.profile) && SameHeld(r.launch, q.launch)
    && r.results == q.results && r.overall == q.overall && r.status == q.status
    && SameHistory(r.trace, q.trace)
  }

  // ── The simulation ──────────────────────────────────────────────

  lemma LaunchingSame<W(!new)>(world: World<W>, p: VMProfile, q: VMProfile, r: Run<W>, r': Run<W>)
    requires Blind(world) && SameGuest(p, q) && SameRun(r, r')
    ensures SameRun(Launching(world, p, r).0, Launching(world, q, r').0)
    ensures Launching(world, p, r).1 == Launching(world, q, r').1
  {
    assert world.launch(r.world, p) == world.launch(r.world, q);
  }

  lemma TalkingSame<W(!new)>(world: World<W>, step: Step, r: Run<W>, q: Run<W>)
    requires Blind(world) && SameRun(r, q) && r.launch.Some?
    requires step.action.Guest? || step.action.GuestPull?
    ensures SameRun(TalkToGuest(world, step, r).0, TalkToGuest(world, step, q).0)
    ensures TalkToGuest(world, step, r).1 == TalkToGuest(world, step, q).1
  {
    var l, m := r.launch.value, q.launch.value;
    assert world.guest(r.world, l.profile, step) == world.guest(r.world, m.profile, step);
    assert world.pull(r.world, l.profile, step) == world.pull(r.world, m.profile, step);
  }

  lemma GuestSame<W(!new)>(world: World<W>, step: Step, r: Run<W>, q: Run<W>)
    requires Blind(world) && SameRun(r, q)
    requires step.action.Guest? || step.action.GuestPull?
    ensures SameRun(PerformGuest(world, step, r).0, PerformGuest(world, step, q).0)
    ensures PerformGuest(world, step, r).1 == PerformGuest(world, step, q).1
  {
    if r.profile.Some? {
      if r.launch.Some? {
        TalkingSame(world, step, r, q);
      } else {
        LaunchingSame(world, r.profile.value, q.profile.value, r, q);
        var (r', o) := Launching(world, r.profile.value, r);
        if o.Started? {
          TalkingSame(world, step, r', Launching(world, q.profile.value, q).0);
        }
      }
    }
  }

  lemma LaunchStepSame<W(!new)>(world: World<W>, cfg: Config, step: Step, r: Run<W>, q: Run<W>)
    requires Blind(world) && SameRun(r, q) && step.action.VmLaunch?
    ensures var a := PerformLaunch(world, cfg.(debug := true), step, r);
      var b := PerformLaunch(world, cfg.(debug := false), step, q);
      SameRun(a.0, b.0) && a.1 == b.1
  {
    if r.profile.Some? && r.launch.None? {
      var id := step.action.guestId;
      var p := ProfileToLaunch(cfg.(debug := true), id, r.profile.value, world.freshId(r.world));
      var p' := ProfileToLaunch(cfg.(debug := false), id, q.profile.value, world.freshId(q.world));
      LaunchingSame(world, p, p', r.(profile := Some(p)), q.(profile := Some(p')));
    }
  }

  lemma StopSame<W(!new)>(world: World<W>, cfg: Config, step: Step, r: Run<W>, q: Run<W>)
    requires Blind(world) && SameRun(r, q)
    ensures var a := PerformStop(world, cfg.(debug := true), step, r);
      var b := PerformStop(world, cfg.(debug := false), step, q);
      SameRun(a.0, b.0) && a.1 == b.1
  {
    if r.launch.Some? {
      var l, m := r.launch.value, q.launch.value;
      assert world.journal(r.world, l.profile).0 == r.world;
      assert world.stop(r.world, l) == world.stop(r.world, m);
    }
  }

  lemma CallSame<W(!new)>(world: World<W>, cfg: Config, step: Step, r: Run<W>, q: Run<W>)
    requires Blind(world) && SameRun(r, q) && step.action.Callable?
    ensures var a := PerformCall(world, cfg.(debug := true), step, r);
      var b := PerformCall(world, cfg.(debug := false), step, q);
      SameRun(a.0, b.0) && a.1 == b.1
  {
    var v := View(r.profile, r.launch, r.results, cfg.allowHostChanges);
    var u := View(q.profile, q.launch, q.results, cfg.allowHostChanges);
    assert SameCall(world.call(r.world, step.action.handler, v), world.call(r.world, step.action.handler, u));
  }

  lemma PerformSame<W(!new)>(world: World<W>, cfg: Config, step: Step, r: Run<W>, q: Run<W>)
    requires Blind(world) && SameRun(r, q)
    ensures var a, b := Perform(world, cfg.(debug := true), step, r), Perform(world, cfg.(debug := false), step, q);
      SameRun(a.0, b.0) && a.1 == b.1
  {
    match step.action {
      case VmLaunch(_) => LaunchStepSame(world, cfg, step, r, q);
      case VmStop => StopSame(world, cfg, step, r, q);
      case Host(_) =>
      case Callable(_) => CallSame(world, cfg, step, r, q);
      case Guest(_) => GuestSame(world, step, r, q);
      case GuestPull(_, _) => GuestSame(world, step, r, q);
    }
  }

  lemma AdvanceSame<W(!new)>(world: World<W>, cfg: Config, steps: seq<Step>, r: Run<W>, q: Run<W>)
    requires Blind(world) && SameRun(r, q) && |r.results| < |steps|
    ensures SameRun(Advance(world, cfg.(debug := true), steps, r), Advance(world, cfg.(debug := false), steps, q))
  {
    PerformSame(world, cfg, steps[|r.results|], r, q);
    var (r', sr) := Perform(world, cfg.(debug := true), steps[|r.results|], r);
    var (q', sq) := Perform(world, cfg.(debug := false), steps[|q.results|], q);
    if sr.Some? {
      RecordSame(steps, r', q', sr.value);
    }
  }

  lemma RecordSame<W(!new)>(steps: seq<Step>, r: Run<W>, q: Run<W>, sr: StepResult)
    requires SameRun(r, q) && |r.results| < |steps|
    ensures SameRun(Record(steps, r, sr), Record(steps, q, sr))
  {
  }

  lemma {:induction false} RunsSame<W(!new)>(world: World<W>, cfg: Config, plan: Plan, w: W, n: nat)
    requires Blind(world)
    ensures SameRun(After(world, cfg.(debug := true), plan, w, n), After(world, cfg.(debug := false), plan, w, n))
  {
    hide Advance;
    if n > 0 {
      RunsSame(world, cfg, plan, w, n - 1);
      var r := After(world, cfg.(debug := true), plan, w, n - 1);
      var q := After(world, cfg.(debug := false), plan, w, n - 1);
      if r.status.Running? && |r.results| < |plan.steps| {
        AdvanceSame(world, cfg, plan.steps, r, q);
      }
    }
  }

  /** In a world that cannot tell, debug mode changes no result, not the verdict, not
      the final world and not the order of launches, guest commands, handler calls and
      stops; each launch is of the same guest, so its QEMU command differs at most in
      the serial log. */
  lemma DebugIsTransparent<W(!new)>(world: World<W>, cfg: Config, plan: Plan, w: W)
    requires Blind(world)
    ensures var a := Execute(world, cfg.(debug := true), plan, w);
      var b := Execute(world, cfg.(debug := false), plan, w);
      && a.results == b.results && a.verdict == b.verdict && a.world == b.world
      && SameHistory(a.trace, b.trace)
  {
    RunsSame(world, cfg, plan, w, |plan.steps|);
    var r := After(world, cfg.(debug := true), plan, w, |plan.steps|);
    var q := After(world, cfg.(debug := false), plan, w, |plan.steps|);
    if r.launch.Some? {
      assert world.stop(r.world, r.launch.value) == world.stop(r.world, q.launch.value);
    }
  }
}
