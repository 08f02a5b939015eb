/** A certification as a run: its tests one after another, over one world
    (sev_verify/cli.py). */
module CertificationRuns {
  import opened Models
  import opened Executor
  import opened Certifications
  import Lifecycle
  import Verdicts

  // ── One test ────────────────────────────────────────────────────

  /** A test's module is loaded, which runs its `steps()`, or is not; or an exception
      leaves `execute_test` before its first step. */
  datatype Loading = Loaded(plan: Plan) | NotLoaded | LoadEscapes

  /** What the tests run in.  Handlers belong to a test's module, so every test has its own
      functions, but all of them act on one state. */
  datatype Surroundings<!W> = Surroundings(
    world: Test -> World<W>,
    config: Test -> Config,
    load: (W, Test) -> (W, Loading))

  /** `state` is None where an exception leaves the test. */
  datatype Tested<W> = Tested(world: W, state: Option<State>, trace: seq<Event>)

  function RunTest<W>(s: Surroundings<W>, w: W, test: Test): Tested<W> {
    var (w', loading) := s.load(w, test);
    match loading
    case NotLoaded => Tested(w', Some(Known(Error)), [])
    case LoadEscapes => Tested(w', None, [])
    case Loaded(plan) =>
      var end := Execute(s.world(test), s.config(test), plan, w');
      Tested(end.world, if end.verdict.Completed? then Some(Known(end.verdict.overall)) else None, end.trace)
  }

  // ── All of them ─────────────────────────────────────────────────

  datatype Progress<W> = Progress(world: W, results: seq<TestResult>, raised: bool)

  /** The run after n turns of the loop; one that raised stays as it is. */
  function Through<W>(s: Surroundings<W>, tests: seq<Test>, w: W, n: nat): Progress<W>
    requires n <= |tests|
  {
    if n == 0 then Progress(w, [], false)
    else
      var p := Through(s, tests, w, n - 1);
      if p.raised then p
      else
        var t := RunTest(s, p.world, tests[n - 1]);
        if t.state.None? then Progress(t.world, p.results, true)
        else Progress(t.world, p.results + [TestResult(tests[n - 1], t.state.value)], false)
  }

  /** The test at i, run in the world its predecessors left. */
  function TestAt<W>(s: Surroundings<W>, tests: seq<Test>, w: W, i: nat): Tested<W>
    requires i < |tests|
  {
    RunTest(s, Through(s, tests, w, i).world, tests[i])
  }

  lemma {:induction false} RaisedStays<W>(s: Surroundings<W>, tests: seq<Test>, w: W, n: nat, m: nat)
    requires n <= m <= |tests| && Through(s, tests, w, n).raised
    ensures Through(s, tests, w, m) == Through(s, tests, w, n)
  {
    if n < m {
      RaisedStays(s, tests, w, n, m - 1);
    }
  }

  /** `execute_certification`: None where an exception leaves it. */
  method ExecuteCertification<W>(s: Surroundings<W>, cert: Certification, w: W)
    returns (result: Option<(seq<TestResult>, State)>, after: W)
    ensures var end := Through(s, cert.tests, w, |cert.tests|);
      && after == end.world
      && (result.None? <==> end.raised)
      && (result.Some? ==> result.value.0 == end.results && IsWorst(result.value.1, end.results))
  {
    hide RunTest;
    var results, overall := [], PASS;
    after := w;
    for i := 0 to |cert.tests|
      invariant Through(s, cert.tests, w, i) == Progress(after, results, false)
      invariant IsWorst(overall, results)
    {
      var t := RunTest(s, after, cert.tests[i]);
      after := t.world;
      if t.state.None? {
        RaisedStays(s, cert.tests, w, i + 1, |cert.tests|);
        return None, after;
      }
      var r := TestResult(cert.tests[i], t.state.value);
      results := results + [r];
      overall := Worse(overall, r.state);
      assert r in results;
    }
    result := Some((results, overall));
  }

  // ── What a certification's run is ───────────────────────────────

  predicate IsResultOf<W>(s: Surroundings<W>, tests: seq<Test>, w: W, i: nat, r: TestResult)
    requires i < |tests|
  {
    r.test == tests[i] && TestAt(s, tests, w, i).state == Some(r.state)
  }

  /** The results are those of the tests in order, each in the world its predecessors
      left; if the run raised, the test after them did. */
  ghost predicate RanInOrder<W>(s: Surroundings<W>, tests: seq<Test>, w: W, p: Progress<W>) {
    && |p.results| <= |tests|
    && (forall i | 0 <= i < |p.results| :: IsResultOf(s, tests, w, i, p.results[i]))
    && (p.raised ==> |p.results| < |tests| && TestAt(s, tests, w, |p.results|).state.None?
                     && p.world == TestAt(s, tests, w, |p.results|).world)
  }

  lemma NextTurn<W>(s: Surroundings<W>, tests: seq<Test>, w: W, n: nat)
    requires n < |tests|
    ensures var p, t := Through(s, tests, w, n), TestAt(s, tests, w, n);
      Through(s, tests, w, n + 1)
      == if p.raised then p
         else if t.state.None? then Progress(t.world, p.results, true)
         else Progress(t.world, p.results + [TestResult(tests[n], t.state.value)], false)
  {
    hide RunTest;
  }

  lemma ReturnedStaysInOrder<W>(s: Surroundings<W>, tests: seq<Test>, w: W, p: Progress<W>, p': Progress<W>,
                                r: TestResult)
    requires RanInOrder(s, tests, w, p) && |p.results| < |tests|
    requires IsResultOf(s, tests, w, |p.results|, r)
    requires !p'.raised && p'.results == p.results + [r]
    ensures RanInOrder(s, tests, w, p')
  {
    hide IsResultOf;
  }

  lemma {:induction false} EveryRunIsInOrder<W>(s: Surroundings<W>, tests: seq<Test>, w: W, n: nat)
    requires n <= |tests|
    ensures var p := Through(s, tests, w, n);
      && RanInOrder(s, tests, w, p)
      && if p.raised then |p.results| < n else |p.results| == n
  {
    if n > 0 {
      hide Through, TestAt;
      EveryRunIsInOrder(s, tests, w, n - 1);
      NextTurn(s, tests, w, n - 1);
      var p, t := Through(s, tests, w, n - 1), TestAt(s, tests, w, n - 1);
      if !p.raised && t.state.Some? {
        ReturnedStaysInOrder(s, tests, w, p, Through(s, tests, w, n), TestResult(tests[n - 1], t.state.value));
      }
    }
  }

  /** For any tests, whatever they do to the world: a certification ends with the first
      test that an exception leaves, and no later test runs; otherwise every test has its
      result. */
  lemma EndsAtFirstRaise<W>(s: Surroundings<W>, tests: seq<Test>, w: W)
    ensures var end := Through(s, tests, w, |tests|);
      && RanInOrder(s, tests, w, end)
      && (end.raised <==> |end.results| < |tests|)
      && (end.raised <==> exists i | 0 <= i < |tests| :: TestAt(s, tests, w, i).state.None?)
  {
    hide RunTest;
    var end := Through(s, tests, w, |tests|);
    EveryRunIsInOrder(s, tests, w, |tests|);
    if end.raised {
      assert TestAt(s, tests, w, |end.results|).state.None?;
    } else {
      forall i | 0 <= i < |tests| ensures TestAt(s, tests, w, i).state.Some? {
        assert IsResultOf(s, tests, w, i, end.results[i]);
      }
    }
  }

  lemma ReturnedLeavesNoGuest<W>(s: Surroundings<W>, w: W, test: Test)
    requires RunTest(s, w, test).state.Some?
    ensures Lifecycle.Alive(RunTest(s, w, test).trace) == {}
  {
    hide Execute, Lifecycle.EndsInLeak, Lifecycle.EndsInFailedStop, Lifecycle.Disciplined;
    var (w', loading) := s.load(w, test);
    if loading.Loaded? {
      Lifecycle.GuestLifecycle(s.world(test), s.config(test), loading.plan, w');
    }
  }

  /** Between two tests no guest is alive, and so none at the end of a certification
      that returns; after one that raised, only a guest of the test that raised. */
  lemma NoGuestBetweenTests<W>(s: Surroundings<W>, tests: seq<Test>, w: W, i: nat)
    requires i < |Through(s, tests, w, |tests|).results|
    ensures i < |tests| && Lifecycle.Alive(TestAt(s, tests, w, i).trace) == {}
  {
    hide RunTest;
    EveryRunIsInOrder(s, tests, w, |tests|);
    assert IsResultOf(s, tests, w, i, Through(s, tests, w, |tests|).results[i]);
    ReturnedLeavesNoGuest(s, Through(s, tests, w, i).world, tests[i]);
  }

  // ── What a certified level means ────────────────────────────────

  /** In the world it was run in, the test's plan loaded and passed, every step that
      counts passed, and no guest was left. */
  predicate Achieved<W>(s: Surroundings<W>, w: W, test: Test) {
    var (w', loading) := s.load(w, test);
    && loading.Loaded?
    && var end := Execute(s.world(test), s.config(test), loading.plan, w');
       && end.verdict == Completed(Pass)
       && |end.results| == |loading.plan.steps|
       && (forall n | 0 <= n < |end.results| ::
             end.results[n].step == loading.plan.steps[n]
             && (loading.plan.steps[n].severity != Info ==> end.results[n].result == Pass))
       && Lifecycle.Alive(end.trace) == {}
  }

  lemma PassIsAchieved<W>(s: Surroundings<W>, w: W, test: Test)
    requires RunTest(s, w, test).state == Some(PASS)
    ensures Achieved(s, w, test)
  {
    hide Execute, Lifecycle.Alive;
    var (w', loading) := s.load(w, test);
    ReturnedLeavesNoGuest(s, w, test);
    var world, cfg, plan := s.world(test), s.config(test), loading.plan;
    Verdicts.ResultsAndVerdict(world, cfg, plan, w');
    var results := Execute(world, cfg, plan, w').results;
    forall n | 0 <= n < |results|
      ensures results[n].step == plan.steps[n] && (plan.steps[n].severity != Info ==> results[n].result == Pass)
    {
      if plan.steps[n].severity != Info {
        Verdicts.PassedStep(world, cfg, plan, w', n);
      }
    }
  }

  lemma PassIffAchieved<W>(s: Surroundings<W>, w: W, test: Test)
    ensures RunTest(s, w, test).state == Some(PASS) <==> Achieved(s, w, test)
  {
    hide Execute, Lifecycle.Alive;
    if RunTest(s, w, test).state == Some(PASS) {
      PassIsAchieved(s, w, test);
    }
  }

  /** What a test gives, outcome by outcome: an error if its plan does not load, nothing if
      an exception leaves it, a pass if it is achieved, and a failure if it returned with a
      setup or required step that failed or errored. */
  lemma TestGives<W>(s: Surroundings<W>, w: W, test: Test)
    ensures var (w', loading) := s.load(w, test);
      var state := RunTest(s, w, test).state;
      && (state == Some(Known(Error)) <==> loading.NotLoaded?)
      && (state == Some(PASS) <==> Achieved(s, w, test))
      && (loading.Loaded? ==>
            var end := Execute(s.world(test), s.config(test), loading.plan, w');
            && RunTest(s, w, test).world == end.world
            && (state.None? <==> end.verdict.Raised?)
            && (state == Some(Known(Fail)) <==>
                  end.verdict.Completed? && exists sr | sr in end.results :: Verdicts.Decisive(sr)))
      && (!loading.Loaded? ==> RunTest(s, w, test).world == w' && (state.None? <==> loading.LoadEscapes?))
  {
    hide Execute, Achieved;
    PassIffAchieved(s, w, test);
    var (w', loading) := s.load(w, test);
    if loading.Loaded? && Execute(s.world(test), s.config(test), loading.plan, w').verdict.Completed? {
      Verdicts.ResultsAndVerdict(s.world(test), s.config(test), loading.plan, w');
    }
  }

  /** The level has tests, and each was achieved in the world that the tests before it
      left. */
  predicate LevelAchieved<W>(s: Surroundings<W>, tests: seq<Test>, w: W, level: string) {
    && (exists i | 0 <= i < |tests| :: tests[i].level == level)
    && (forall i | 0 <= i < |tests| && tests[i].level == level :: Achieved(s, Through(s, tests, w, i).world, tests[i]))
  }

  lemma PassedIffAchieved<W>(s: Surroundings<W>, tests: seq<Test>, w: W, level: string)
    requires !Through(s, tests, w, |tests|).raised
    ensures Passed(Through(s, tests, w, |tests|).results, level) <==> LevelAchieved(s, tests, w, level)
  {
    hide RunTest, Achieved;
    var results := Through(s, tests, w, |tests|).results;
    EveryRunIsInOrder(s, tests, w, |tests|);
    forall i | 0 <= i < |tests|
      ensures results[i] in results && results[i].test == tests[i]
      ensures results[i].state == PASS <==> Achieved(s, Through(s, tests, w, i).world, tests[i])
    {
      PassIffAchieved(s, Through(s, tests, w, i).world, tests[i]);
    }
  }

  /** For any tests in any world: a certification that ran to its end certifies a level up
      to the cap, or a higher one, exactly when every level up to it was achieved. */
  lemma CertifiedIffAchieved<W>(s: Surroundings<W>, c: Certification, w: W, highest: Option<string>, k: nat)
    requires WellBuilt(c) && !Through(s, c.tests, w, |c.tests|).raised
    requires IsHighest(c, Through(s, c.tests, w, |c.tests|).results, highest)
    requires k < |c.allLevels| && k <= CapIndex(c)
    ensures highest.Some? ==> highest.value in c.allLevels
    ensures k <= LevelIndex(c, highest)
            <==> forall j | 0 <= j <= k :: LevelAchieved(s, c.tests, w, c.allLevels[j])
  {
    hide Through, LevelAchieved, Passed, IsHighest, CapIndex;
    var results := Through(s, c.tests, w, |c.tests|).results;
    HighestIsReached(c, results, highest);
    forall j | 0 <= j <= k
      ensures Passed(results, c.allLevels[j]) <==> LevelAchieved(s, c.tests, w, c.allLevels[j])
    {
      PassedIffAchieved(s, c.tests, w, c.allLevels[j]);
    }
  }
}
