/** Which profile each launch uses. */
module ProfileThreading {
  import opened Models
  import opened VmProfiles
  import opened Runner
  import opened Executor

  /** The profile the last handler of a history left in the context. */
  function Latest(start: Option<VMProfile>, t: seq<Event>): Option<VMProfile>
    decreases |t|
  {
    if t == [] then start
    else if t[|t| - 1].HandlerCalled? then t[|t| - 1].after
    else Latest(start, t[..|t| - 1])
  }

  /** The same guest; and without debug the very same profile. */
  predicate Matches(cfg: Config, p: Option<VMProfile>, q: Option<VMProfile>) {
    && (p.Some? <==> q.Some?)
    && (p.Some? ==> SameGuest(p.value, q.value))
    && (!cfg.debug ==> p == q)
  }

  predicate FollowsLatest(cfg: Config, start: Option<VMProfile>, before: seq<Event>, e: Event) {
    match e
    case Launched(p, _) => Matches(cfg, Some(p), Latest(start, before))
    case HandlerCalled(_, view, _) => Matches(cfg, view.profile, Latest(start, before))
    case _ => true
  }

  predicate Threaded(cfg: Config, start: Option<VMProfile>, t: seq<Event>) {
    forall k | 0 <= k < |t| :: FollowsLatest(cfg, start, t[..k], t[k])
  }

  lemma ThreadedAppend(cfg: Config, start: Option<VMProfile>, t: seq<Event>, e: Event)
    requires Threaded(cfg, start, t) && FollowsLatest(cfg, start, t, e)
    ensures Threaded(cfg, start, t + [e])
    ensures Latest(start, t + [e]) == if e.HandlerCalled? then e.after else Latest(start, t)
  {
    var u := t + [e];
    assert u[..|u| - 1] == t;
    forall k | 0 <= k < |u| ensures FollowsLatest(cfg, start, u[..k], u[k]) {
      assert u[..k] == t[..k];
      assert k == |t| ==> t[..k] == t;
    }
  }

  predicate Current<W>(cfg: Config, start: Option<VMProfile>, r: Run<W>) {
    Threaded(cfg, start, r.trace) && Matches(cfg, r.profile, Latest(start, r.trace))
  }

  lemma LaunchingCurrent<W>(world: World<W>, cfg: Config, start: Option<VMProfile>, r: Run<W>)
    requires Current(cfg, start, r) && r.profile.Some?
    ensures Current(cfg, start, Launching(world, r.profile.value, r).0)
  {
    ThreadedAppend(cfg, start, r.trace, Launched(r.profile.value, world.launch(r.world, r.profile.value).1));
  }

  lemma TalkingCurrent<W>(world: World<W>, cfg: Config, start: Option<VMProfile>, step: Step, r: Run<W>)
    requires Current(cfg, start, r) && r.launch.Some?
    requires step.action.Guest? || step.action.GuestPull?
    ensures Current(cfg, start, TalkToGuest(world, step, r).0)
  {
    var l := r.launch.value;
    ThreadedAppend(cfg, start, r.trace, GuestTalked(l.handle, l.profile, step));
  }

  lemma GuestCurrent<W>(world: World<W>, cfg: Config, start: Option<VMProfile>, step: Step, r: Run<W>)
    requires Current(cfg, start, r)
    requires step.action.Guest? || step.action.GuestPull?
    ensures Current(cfg, start, PerformGuest(world, step, r).0)
  {
    if r.profile.Some? {
      if r.launch.Some? {
        TalkingCurrent(world, cfg, start, step, r);
      } else {
        LaunchingCurrent(world, cfg, start, r);
        var (r', o) := Launching(world, r.profile.value, r);
        if o.Started? {
          TalkingCurrent(world, cfg, start, step, r');
        }
      }
    }
  }

  lemma LaunchStepCurrent<W>(world: World<W>, cfg: Config, start: Option<VMProfile>, step: Step, r: Run<W>)
    requires Current(cfg, start, r) && step.action.VmLaunch?
    ensures Current(cfg, start, PerformLaunch(world, cfg, step, r).0)
  {
    if r.profile.Some? && r.launch.None? {
      var profile := ProfileToLaunch(cfg, step.action.guestId, r.profile.value, world.freshId(r.world));
      LaunchingCurrent(world, cfg, start, r.(profile := Some(profile)));
    }
  }

  lemma OtherCurrent<W>(world: World<W>, cfg: Config, start: Option<VMProfile>, step: Step, r: Run<W>)
    requires Current(cfg, start, r)
    requires step.action.VmStop? || step.action.Host? || step.action.Callable?
    ensures Current(cfg, start, Perform(world, cfg, step, r).0)
  {
    hide HostResult, CallResult, StopResult, Threaded, Latest;
    var r' := Perform(world, cfg, step, r).0;
    if r'.trace != r.trace {
      ThreadedAppend(cfg, start, r.trace, r'.trace[|r.trace|]);
    }
  }

  lemma PerformCurrent<W>(world: World<W>, cfg: Config, start: Option<VMProfile>, step: Step, r: Run<W>)
    requires Current(cfg, start, r)
    ensures Current(cfg, start, Perform(world, cfg, step, r).0)
  {
    match step.action {
      case VmLaunch(_) => LaunchStepCurrent(world, cfg, start, step, r);
      case Guest(_) => GuestCurrent(world, cfg, start, step, r);
      case GuestPull(_, _) => GuestCurrent(world, cfg, start, step, r);
      case _ => OtherCurrent(world, cfg, start, step, r);
    }
  }

  /** Recording a result touches neither the profile nor the history. */
  lemma AdvanceIsPerform<W>(world: World<W>, cfg: Config, steps: seq<Step>, r: Run<W>)
    requires |r.results| < |steps|
    ensures var r1, r2 := Perform(world, cfg, steps[|r.results|], r).0, Advance(world, cfg, steps, r);
      r2.profile == r1.profile && r2.trace == r1.trace
  {
  }

  lemma {:induction false} EveryRunIsCurrent<W>(world: World<W>, cfg: Config, plan: Plan, w: W, n: nat)
    ensures Current(cfg, Start(cfg, plan, w).profile, After(world, cfg, plan, w, n))
  {
    hide Advance, Perform;
    if n > 0 {
      EveryRunIsCurrent(world, cfg, plan, w, n - 1);
      var r := After(world, cfg, plan, w, n - 1);
      if r.status.Running? && |r.results| < |plan.steps| {
        PerformCurrent(world, cfg, Start(cfg, plan, w).profile, plan.steps[|r.results|], r);
        AdvanceIsPerform(world, cfg, plan.steps, r);
      }
    }
  }

  // ── The latest handler that replaced the profile ────────────────

  /** The profile that the last handler to replace it left, or the first one. */
  function Replaced(start: Option<VMProfile>, t: seq<Event>): Option<VMProfile>
    decreases |t|
  {
    if t == [] then start
    else
      var e := t[|t| - 1];
      if e.HandlerCalled? && e.after != e.view.profile then e.after else Replaced(start, t[..|t| - 1])
  }

  lemma MatchesChain(cfg: Config, p: Option<VMProfile>, q: Option<VMProfile>, r: Option<VMProfile>)
    requires Matches(cfg, p, q) && Matches(cfg, q, r)
    ensures Matches(cfg, p, r)
  {
  }

  /** A handler that does not replace the profile leaves the one it saw, which is that
      of the handler before it. */
  lemma {:induction false} LatestIsReplaced(cfg: Config, start: Option<VMProfile>, t: seq<Event>)
    requires Threaded(cfg, start, t)
    ensures Matches(cfg, Latest(start, t), Replaced(start, t))
    decreases |t|
  {
    if t != [] {
      var n := |t| - 1;
      assert Threaded(cfg, start, t[..n]) by {
        forall k | 0 <= k < n ensures FollowsLatest(cfg, start, t[..n][..k], t[..n][k]) {
          assert t[..n][..k] == t[..k];
          assert FollowsLatest(cfg, start, t[..k], t[k]);
        }
      }
      LatestIsReplaced(cfg, start, t[..n]);
      assert FollowsLatest(cfg, start, t[..n], t[n]);
      if t[n].HandlerCalled? && t[n].after == t[n].view.profile {
        MatchesChain(cfg, t[n].view.profile, Latest(start, t[..n]), Replaced(start, t[..n]));
      }
    }
  }

  lemma EveryEndIsThreaded<W>(world: World<W>, cfg: Config, plan: Plan, w: W)
    ensures Threaded(cfg, Start(cfg, plan, w).profile, Execute(world, cfg, plan, w).trace)
  {
    hide After, Threaded, FollowsLatest, Latest;
    EveryRunIsCurrent(world, cfg, plan, w, |plan.steps|);
    var t, start := Execute(world, cfg, plan, w).trace, Start(cfg, plan, w).profile;
    var r := After(world, cfg, plan, w, |plan.steps|);
    if r.launch.Some? {
      var o := world.stop(r.world, r.launch.value).1;
      var e := StopTried(r.launch.value.handle, o.Stopped?);
      StopsFollow(cfg, start, r.trace, e);
      ThreadedAppend(cfg, start, r.trace, e);
    }
  }

  lemma StopsFollow(cfg: Config, start: Option<VMProfile>, t: seq<Event>, e: Event)
    requires e.StopTried?
    ensures FollowsLatest(cfg, start, t, e)
  {
  }

  lemma EventMatches(cfg: Config, start: Option<VMProfile>, t: seq<Event>, k: nat)
    requires Threaded(cfg, start, t) && k < |t|
    ensures t[k].Launched? ==> Matches(cfg, Some(t[k].profile), Replaced(start, t[..k]))
    ensures t[k].HandlerCalled? ==> Matches(cfg, t[k].view.profile, Replaced(start, t[..k]))
  {
    hide Matches, Latest, Replaced;
    assert Threaded(cfg, start, t[..k]) by {
      forall j | 0 <= j < k ensures FollowsLatest(cfg, start, t[..k][..j], t[..k][j]) {
        assert t[..k][..j] == t[..j];
        assert FollowsLatest(cfg, start, t[..j], t[j]);
      }
    }
    LatestIsReplaced(cfg, start, t[..k]);
    assert FollowsLatest(cfg, start, t[..k], t[k]);
    if t[k].Launched? {
      MatchesChain(cfg, Some(t[k].profile), Latest(start, t[..k]), Replaced(start, t[..k]));
    } else if t[k].HandlerCalled? {
      MatchesChain(cfg, t[k].view.profile, Latest(start, t[..k]), Replaced(start, t[..k]));
    }
  }

  /** For every plan and every world, every launch, by a launch step or by a guest
      step, with debug or without, passes QEMU the guest object of the profile that
      the latest earlier handler to replace it left, or of the merged profile if none
      did; and every handler sees the profile of that guest, too. */
  lemma LaunchesUseLatestProfile<W>(world: World<W>, cfg: Config, plan: Plan, w: W)
    ensures var t, start := Execute(world, cfg, plan, w).trace, Start(cfg, plan, w).profile;
      && (forall k | 0 <= k < |t| && t[k].Launched? ::
            var latest := Replaced(start, t[..k]);
            && latest.Some?
            && SevGuestParts(t[k].profile) == SevGuestParts(latest.value)
            && (!cfg.debug ==> t[k].profile == latest.value))
      && (forall k | 0 <= k < |t| && t[k].HandlerCalled? ::
            Matches(cfg, t[k].view.profile, Replaced(start, t[..k])))
  {
    hide Execute, Threaded, Replaced;
    EveryEndIsThreaded(world, cfg, plan, w);
    var t, start := Execute(world, cfg, plan, w).trace, Start(cfg, plan, w).profile;
    forall k | 0 <= k < |t| && t[k].Launched?
      ensures Matches(cfg, Some(t[k].profile), Replaced(start, t[..k]))
      ensures SevGuestParts(t[k].profile) == SevGuestParts(Replaced(start, t[..k]).value)
    {
      EventMatches(cfg, start, t, k);
      SameGuestSameObject(t[k].profile, Replaced(start, t[..k]).value);
    }
    forall k | 0 <= k < |t| && t[k].HandlerCalled?
      ensures Matches(cfg, t[k].view.profile, Replaced(start, t[..k]))
    {
      EventMatches(cfg, start, t, k);
    }
  }
}
