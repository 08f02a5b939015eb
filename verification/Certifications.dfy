/** Folding test results into a certification's result and level
    (sev_verify/cli.py, sev_verify/models.py, sev_verify/output.py). */
module Certifications {
  import opened Models

  /** A test of a manifest; level "" is a test without a level. */
  datatype Test = Test(name: string, level: string)

  /** `allLevels` are the levels of the whole manifest, in its order. */
  datatype Certification = Certification(tests: seq<Test>, allLevels: seq<string>, cap: Option<string>)

  /** Results are strings; one that is not a known state is kept as it is. */
  datatype State = Known(outcome: Outcome) | Unknown(text: string)

  const PASS := Known(Pass)

  datatype TestResult = TestResult(test: Test, state: State)

  // ── The overall result ──────────────────────────────────────────

  function Rank(s: State): nat {
    match s
    case Known(Pass) => 0
    case Known(Skip) => 1
    case Known(Fail) => 2
    case Known(Error) => 3
    case Unknown(_) => 4
  }

  /** `_worse_result`. */
  function Worse(current: State, candidate: State): State {
    if Rank(candidate) > Rank(current) then candidate else current
  }

  /** The worst of the results: none is worse, and it is one of them unless they all
      pass. */
  predicate IsWorst(s: State, results: seq<TestResult>) {
    && (forall r | r in results :: Rank(r.state) <= Rank(s))
    && (s == PASS || exists r | r in results :: r.state == s)
  }

  /** The order of the tests does not matter, and a certification passes exactly when
      all its tests do. */
  lemma WorstIsOrderless(s: State, t: State, a: seq<TestResult>, b: seq<TestResult>)
    requires IsWorst(s, a) && IsWorst(t, b)
    requires forall r :: r in a <==> r in b
    ensures Rank(s) == Rank(t) && (s.Known? ==> s == t)
    ensures s == PASS <==> forall r | r in a :: r.state == PASS
  {
    if s != PASS {
      var r :| r in a && r.state == s;
    }
    if t != PASS {
      var r :| r in b && r.state == t;
    }
  }

  predicate Occurs(results: seq<TestResult>, s: State) {
    exists r | r in results :: r.state == s
  }

  /** The overall result, outcome by outcome: anything unknown outweighs an error, an error a
      failure, a failure a skip, and a skip a pass. */
  lemma WorstIs(s: State, results: seq<TestResult>)
    requires IsWorst(s, results)
    ensures s.Unknown? <==> exists r | r in results :: r.state.Unknown?
    ensures s == Known(Error) <==> !s.Unknown? && Occurs(results, Known(Error))
    ensures s == Known(Fail) <==> !s.Unknown? && s != Known(Error) && Occurs(results, Known(Fail))
    ensures s == Known(Skip) <==> && !s.Unknown? && s != Known(Error) && s != Known(Fail)
                                  && Occurs(results, Known(Skip))
  {
    if s != PASS {
      var r :| r in results && r.state == s;
    }
  }

  // ── The levels of a manifest ────────────────────────────────────

  /** The levels in the order they are first mentioned. */
  function LevelsOf(tests: seq<Test>): seq<string> {
    if tests == [] then []
    else
      var rest, level := LevelsOf(tests[..|tests| - 1]), tests[|tests| - 1].level;
      if level == "" || level in rest then rest else rest + [level]
  }

  lemma {:induction false} LevelsAreMentioned(tests: seq<Test>, level: string)
    ensures level in LevelsOf(tests) <==> level != "" && exists t | t in tests :: t.level == level
  {
    if tests != [] {
      var init, last := tests[..|tests| - 1], tests[|tests| - 1];
      LevelsAreMentioned(init, level);
      assert forall t :: t in tests <==> t in init || t == last;
    }
  }

  predicate DistinctLevels(levels: seq<string>) {
    forall i, j | 0 <= i < j < |levels| :: levels[i] != levels[j]
  }

  /** Some test before the n-th is of this level. */
  predicate MentionedBefore(tests: seq<Test>, level: string, n: nat)
    requires n <= |tests|
  {
    exists m | 0 <= m < n :: tests[m].level == level
  }

  /** Every level of the list was mentioned before the tests of the later ones. */
  predicate InOrder(tests: seq<Test>, levels: seq<string>) {
    forall i, j, n | 0 <= i < j < |levels| && 0 <= n < |tests| && tests[n].level == levels[j] ::
      MentionedBefore(tests, levels[i], n)
  }

  lemma ListedIsMentionedBefore(tests: seq<Test>, level: string, n: nat)
    requires n <= |tests| && level in LevelsOf(tests[..n])
    ensures MentionedBefore(tests, level, n)
  {
    LevelsAreMentioned(tests[..n], level);
    var t :| t in tests[..n] && t.level == level;
    var m :| 0 <= m < n && tests[m] == t;
  }

  lemma NewIsNotEarlier(tests: seq<Test>, level: string, n: nat)
    requires n < |tests| && tests[n].level == level != ""
    ensures level in LevelsOf(tests)
  {
    LevelsAreMentioned(tests, level);
    assert tests[n] in tests;
  }

  /** No level twice, and an earlier one was mentioned before every later one. */
  lemma {:induction false} LevelsAreInOrder(tests: seq<Test>)
    ensures DistinctLevels(LevelsOf(tests)) && "" !in LevelsOf(tests)
    ensures InOrder(tests, LevelsOf(tests))
  {
    hide MentionedBefore;
    if tests != [] {
      var last, init, levels := |tests| - 1, tests[..|tests| - 1], LevelsOf(tests);
      LevelsAreInOrder(init);
      forall i, j, n | 0 <= i < j < |levels| && 0 <= n < |tests| && tests[n].level == levels[j]
        ensures MentionedBefore(tests, levels[i], n)
      {
        assert levels[i] == LevelsOf(init)[i];
        if n < last {
          EarlierStays(init, tests, levels, i, j, n);
        } else {
          ListedIsMentionedBefore(tests, levels[i], last);
        }
      }
    }
  }

  lemma EarlierStays(init: seq<Test>, tests: seq<Test>, levels: seq<string>, i: nat, j: nat, n: nat)
    requires n < |init| && init <= tests && i < j < |levels| && init[n].level == levels[j]
    requires DistinctLevels(levels) && "" !in levels && LevelsOf(init) <= levels
    requires InOrder(init, LevelsOf(init))
    ensures MentionedBefore(tests, levels[i], n)
  {
    NewIsNotEarlier(init, levels[j], n);
    var k :| 0 <= k < |LevelsOf(init)| && LevelsOf(init)[k] == levels[j];
    assert levels[k] == levels[j];
    assert MentionedBefore(init, LevelsOf(init)[i], n);
  }

  /** The loop of `__post_init__`. */
  method FillLevels(tests: seq<Test>) returns (levels: seq<string>)
    ensures levels == LevelsOf(tests)
  {
    var seen: set<string> := {};
    levels := [];
    for i := 0 to |tests|
      invariant levels == LevelsOf(tests[..i]) && forall l :: l in seen <==> l in levels
    {
      var t := tests[i];
      assert tests[..i + 1][..i] == tests[..i];
      if t.level != "" && t.level !in seen {
        seen := seen + {t.level};
        levels := levels + [t.level];
      }
    }
    assert tests[..|tests|] == tests;
  }

  /** `CertificationDefinition(...)`: None is a ValueError. */
  function Define(tests: seq<Test>, allLevels: seq<string>, cap: Option<string>): Option<Certification> {
    var levels := if allLevels == [] then LevelsOf(tests) else allLevels;
    if cap.Some? && levels != [] && cap.value !in levels then None
    else Some(Certification(tests, levels, cap))
  }

  /** What every certification that was built satisfies: its levels are distinct, hold
      those of its tests, and hold the cap unless there are none. */
  predicate WellBuilt(c: Certification) {
    && DistinctLevels(c.allLevels) && "" !in c.allLevels
    && (forall t | t in c.tests :: t.level != "" ==> t.level in c.allLevels)
    && (c.cap.Some? && c.allLevels != [] ==> c.cap.value in c.allLevels)
  }

  lemma ManifestIsWellBuilt(tests: seq<Test>, cap: Option<string>)
    ensures var c := Define(tests, [], cap); c.Some? ==> WellBuilt(c.value)
  {
    LevelsAreInOrder(tests);
    LevelsAreMentioned(tests, "");
    forall t | t in tests ensures t.level != "" ==> t.level in LevelsOf(tests) {
      LevelsAreMentioned(tests, t.level);
    }
  }

  /** What a manifest is built into: it is refused exactly if its cap is no level of its
      tests while they have levels; otherwise tests and cap are its own, and its levels are
      those of its tests, each once and in order of first mention. */
  lemma DefineDecides(tests: seq<Test>, cap: Option<string>)
    ensures var c := Define(tests, [], cap);
      && (c.None? <==> && cap.Some? && (exists t | t in tests :: t.level != "")
                       && (cap.value == "" || forall t | t in tests :: t.level != cap.value))
      && (c.Some? ==>
            && c.value.tests == tests && c.value.cap == cap
            && DistinctLevels(c.value.allLevels) && InOrder(tests, c.value.allLevels)
            && (forall l :: l in c.value.allLevels <==> l != "" && exists t | t in tests :: t.level == l))
  {
    hide InOrder;
    LevelsAreInOrder(tests);
    forall l ensures l in LevelsOf(tests) <==> l != "" && exists t | t in tests :: t.level == l {
      LevelsAreMentioned(tests, l);
    }
    if t :| t in tests && t.level != "" {
      assert t.level in LevelsOf(tests);
    }
    if LevelsOf(tests) != [] {
      assert LevelsOf(tests)[0] in LevelsOf(tests);
    }
  }

  // ── The highest level ───────────────────────────────────────────

  /** The results of a level's tests, in their order. */
  function ResultsAt(results: seq<TestResult>, level: string): seq<State> {
    if results == [] then []
    else
      var rest, last := ResultsAt(results[..|results| - 1], level), results[|results| - 1];
      if last.test.level == level then rest + [last.state] else rest
  }

  /** A level is passed when it was run and every test of it passed. */
  predicate Passed(results: seq<TestResult>, level: string) {
    && (exists r | r in results :: r.test.level == level)
    && (forall r | r in results && r.test.level == level :: r.state == PASS)
  }

  predicate AllPass(states: seq<State>) {
    forall s | s in states :: s == PASS
  }

  lemma {:induction false} ResultsAtMean(results: seq<TestResult>, level: string)
    ensures ResultsAt(results, level) != [] <==> exists r | r in results :: r.test.level == level
    ensures AllPass(ResultsAt(results, level)) <==> forall r | r in results && r.test.level == level :: r.state == PASS
  {
    if results != [] {
      var init, last := results[..|results| - 1], results[|results| - 1];
      ResultsAtMean(init, level);
      assert forall r :: r in results <==> r in init || r == last;
      assert last in results && forall r | r in init :: r in results;
      assert AllPass(ResultsAt(init, level) + [last.state])
        <==> AllPass(ResultsAt(init, level)) && last.state == PASS by {
        assert last.state in ResultsAt(init, level) + [last.state];
        assert forall s | s in ResultsAt(init, level) :: s in ResultsAt(init, level) + [last.state];
      }
    }
  }

  function IndexOf(levels: seq<string>, level: string): (i: nat)
    requires level in levels
    ensures i < |levels| && levels[i] == level
    ensures forall k | 0 <= k < i :: levels[k] != level
  {
    if levels[0] == level then 0 else 1 + IndexOf(levels[1..], level)
  }

  /** The first n levels are all passed. */
  predicate Reaches(results: seq<TestResult>, levels: seq<string>, n: nat) {
    n <= |levels| && forall i | 0 <= i < n :: Passed(results, levels[i])
  }

  function CapIndex(c: Certification): nat
    requires WellBuilt(c) && c.allLevels != []
  {
    if c.cap.Some? then IndexOf(c.allLevels, c.cap.value) else |c.allLevels| - 1
  }

  /** The level reached is that of the longest prefix of levels that all passed, or the
      cap if that is earlier. */
  predicate IsHighest(c: Certification, results: seq<TestResult>, highest: Option<string>)
    requires WellBuilt(c)
  {
    if !Reaches(results, c.allLevels, 1) then highest == None
    else
      exists n | 0 < n <= |c.allLevels| && Reaches(results, c.allLevels, n) && !Reaches(results, c.allLevels, n + 1) ::
        highest == Some(c.allLevels[if n - 1 <= CapIndex(c) then n - 1 else CapIndex(c)])
  }

  /** `_highest_certified_level`.  That `IndexOf` applies is that `list.index` does not
      raise. */
  method HighestCertifiedLevel(c: Certification, results: seq<TestResult>) returns (highest: Option<string>)
    requires WellBuilt(c)
    ensures IsHighest(c, results, highest)
  {
    var byLevel := CollectByLevel(results);
    highest := None;
    var n := 0;
    while n < |c.allLevels|
      invariant n <= |c.allLevels| && Reaches(results, c.allLevels, n)
      invariant highest == if n == 0 then None else Some(c.allLevels[n - 1])
    {
      var level := c.allLevels[n];
      ResultsAtMean(results, level);
      if level !in byLevel || byLevel[level] == [] {
        break;
      }
      if exists s | s in byLevel[level] :: s != PASS {
        break;
      }
      highest := Some(level);
      n := n + 1;
    }
    assert !Reaches(results, c.allLevels, n + 1);
    if highest.Some? {
      assert IndexOf(c.allLevels, highest.value) == n - 1;
      assert Passed(results, c.allLevels[0]);
    }
    if highest.Some? && c.cap.Some? {
      if IndexOf(c.allLevels, c.cap.value) < IndexOf(c.allLevels, highest.value) {
        highest := c.cap;
      }
    }
  }

  /** The map from levels to results, as both the level walk and the JSON table need it. */
  method CollectByLevel(results: seq<TestResult>) returns (byLevel: map<string, seq<State>>)
    ensures forall l :: l in byLevel <==> l != "" && ResultsAt(results, l) != []
    ensures forall l | l in byLevel :: byLevel[l] == ResultsAt(results, l)
  {
    byLevel := map[];
    for i := 0 to |results|
      invariant forall l :: l in byLevel <==> l != "" && ResultsAt(results[..i], l) != []
      invariant forall l | l in byLevel :: byLevel[l] == ResultsAt(results[..i], l)
    {
      var r := results[i];
      assert results[..i + 1][..i] == results[..i];
      if r.test.level != "" {
        var so := if r.test.level in byLevel then byLevel[r.test.level] else [];
        byLevel := byLevel[r.test.level := so + [r.state]];
      }
    }
    assert results[..|results|] == results;
  }

  // ── The JSON table ──────────────────────────────────────────────

  /** A row of the table: a level with results passes or fails, one without is skipped. */
  predicate IsRow(results: seq<TestResult>, level: string, o: Outcome) {
    && (o == Pass <==> Passed(results, level))
    && (o == Skip <==> forall r | r in results :: r.test.level != level)
    && o != Error
  }

  predicate IsTable(c: Certification, results: seq<TestResult>, table: seq<Outcome>) {
    |table| == |c.allLevels| && forall i | 0 <= i < |table| :: IsRow(results, c.allLevels[i], table[i])
  }

  /** The level loop of `write_json`. */
  method LevelTable(c: Certification, results: seq<TestResult>) returns (table: seq<Outcome>)
    requires WellBuilt(c)
    ensures IsTable(c, results, table)
  {
    var byLevel := CollectByLevel(results);
    table := [];
    for i := 0 to |c.allLevels|
      invariant |table| == i && forall k | 0 <= k < i :: IsRow(results, c.allLevels[k], table[k])
    {
      var level := c.allLevels[i];
      ResultsAtMean(results, level);
      var trs := if level in byLevel then byLevel[level] else [];
      var row := if AllPass(trs) then Pass else Fail;
      if trs == [] {
        row := Skip;
      }
      assert IsRow(results, level, row);
      table := table + [row];
    }
  }

  // ── Agreement ───────────────────────────────────────────────────

  function LevelIndex(c: Certification, highest: Option<string>): int
    requires highest.Some? ==> highest.value in c.allLevels
  {
    if highest.None? then -1 else IndexOf(c.allLevels, highest.value)
  }

  lemma HighestIsReached(c: Certification, results: seq<TestResult>, highest: Option<string>)
    requires WellBuilt(c) && IsHighest(c, results, highest)
    ensures highest.Some? ==> highest.value in c.allLevels
    ensures var k := LevelIndex(c, highest);
      && (c.allLevels != [] ==> k <= CapIndex(c))
      && Reaches(results, c.allLevels, k + 1)
      && (c.allLevels == [] || k == CapIndex(c) || !Reaches(results, c.allLevels, k + 2))
  {
    if highest.Some? {
      var n :| 0 < n <= |c.allLevels| && Reaches(results, c.allLevels, n) && !Reaches(results, c.allLevels, n + 1)
               && highest == Some(c.allLevels[if n - 1 <= CapIndex(c) then n - 1 else CapIndex(c)]);
      assert IndexOf(c.allLevels, highest.value) == if n - 1 <= CapIndex(c) then n - 1 else CapIndex(c);
    }
  }

  /** Every level up to the certified one is "pass" in the table, and unless the cap was
      reached, the next one is "fail" or "skip". */
  lemma TableAgrees(c: Certification, results: seq<TestResult>, highest: Option<string>, table: seq<Outcome>)
    requires WellBuilt(c) && IsHighest(c, results, highest) && IsTable(c, results, table)
    ensures highest.Some? ==> highest.value in c.allLevels
    ensures var k := LevelIndex(c, highest);
      && k < |table| && (forall i | 0 <= i <= k :: table[i] == Pass)
      && (c.allLevels != [] && k < CapIndex(c) ==> table[k + 1] == Fail || table[k + 1] == Skip)
  {
    HighestIsReached(c, results, highest);
    var k := LevelIndex(c, highest);
    forall i | 0 <= i <= k ensures table[i] == Pass {
      assert Passed(results, c.allLevels[i]);
    }
    if c.allLevels != [] && k < CapIndex(c) {
      assert !Passed(results, c.allLevels[k + 1]);
      assert IsRow(results, c.allLevels[k + 1], table[k + 1]);
    }
  }

  /** Where more levels are passed, the certified level is no lower. */
  lemma MorePassedIsNoLower(c: Certification, c': Certification, a: seq<TestResult>, b: seq<TestResult>,
                            h: Option<string>, h': Option<string>)
    requires WellBuilt(c) && WellBuilt(c') && c'.allLevels == c.allLevels && c'.cap == c.cap
    requires IsHighest(c, a, h) && IsHighest(c', b, h')
    requires forall l | l in c.allLevels && Passed(a, l) :: Passed(b, l)
    ensures h.Some? ==> h.value in c.allLevels
    ensures h'.Some? ==> h'.value in c.allLevels
    ensures LevelIndex(c, h) <= LevelIndex(c, h')
  {
    HighestIsReached(c, a, h);
    HighestIsReached(c', b, h');
    var k, k' := LevelIndex(c, h), LevelIndex(c, h');
    if k > k' {
      forall i | 0 <= i < k' + 2 ensures Passed(b, c.allLevels[i]) {
        assert Passed(a, c.allLevels[i]);
      }
    }
  }

  /** Improving test results never lowers the level. */
  lemma ImprovingNeverLowers(c: Certification, a: seq<TestResult>, b: seq<TestResult>,
                             h: Option<string>, h': Option<string>)
    requires WellBuilt(c) && IsHighest(c, a, h) && IsHighest(c, b, h')
    requires |a| == |b|
    requires forall i | 0 <= i < |a| :: a[i].test == b[i].test && (a[i].state == PASS ==> b[i].state == PASS)
    ensures h.Some? ==> h.value in c.allLevels
    ensures h'.Some? ==> h'.value in c.allLevels
    ensures LevelIndex(c, h) <= LevelIndex(c, h')
  {
    forall l | l in c.allLevels && Passed(a, l) ensures Passed(b, l) {
      var r :| r in a && r.test.level == l;
      var i :| 0 <= i < |a| && a[i] == r;
      assert b[i] in b && b[i].test.level == l;
      forall r' | r' in b && r'.test.level == l ensures r'.state == PASS {
        var j :| 0 <= j < |b| && b[j] == r';
        assert a[j] in a;
      }
    }
    MorePassedIsNoLower(c, c, a, b, h, h');
  }

  /** `_filter_tests`: the tests of the levels that are kept; the levels and the cap
      stay those of the manifest. */
  function Kept(tests: seq<Test>, keep: string -> bool): seq<Test> {
    if tests == [] then []
    else
      var rest, last := Kept(tests[..|tests| - 1], keep), tests[|tests| - 1];
      if keep(last.level) then rest + [last] else rest
  }

  /** Those tests, in their order. */
  lemma {:induction false} KeptJoin(a: seq<Test>, b: seq<Test>, keep: string -> bool)
    ensures Kept(a + b, keep) == Kept(a, keep) + Kept(b, keep)
  {
    if b == [] {
      assert a + b == a;
    } else {
      var init := b[..|b| - 1];
      KeptJoin(a, init, keep);
      assert (a + b)[..|a + b| - 1] == a + init && (a + b)[|a + b| - 1] == b[|b| - 1];
    }
  }

  lemma OneKept(t: Test, keep: string -> bool)
    ensures Kept([t], keep) == if keep(t.level) then [t] else []
  {
    assert [t][..0] == [];
  }

  lemma {:induction false} KeptAre(tests: seq<Test>, keep: string -> bool, t: Test)
    ensures t in Kept(tests, keep) <==> t in tests && keep(t.level)
  {
    if tests != [] {
      KeptAre(tests[..|tests| - 1], keep, t);
      assert t in tests <==> t in tests[..|tests| - 1] || t == tests[|tests| - 1];
    }
  }

  /** Building the filtered copy never raises. */
  lemma FilteringNeverRaises(c: Certification, keep: string -> bool)
    requires WellBuilt(c) && !keep("")
    ensures var d := Define(Kept(c.tests, keep), c.allLevels, c.cap);
      d == Some(c.(tests := Kept(c.tests, keep))) && WellBuilt(d.value)
  {
    forall t | t in Kept(c.tests, keep) ensures t in c.tests && t.level in c.allLevels {
      KeptAre(c.tests, keep, t);
    }
    if c.allLevels == [] && Kept(c.tests, keep) != [] {
      assert Kept(c.tests, keep)[0] in Kept(c.tests, keep);
    }
  }

  /** The results of running tests whose outcomes are fixed. */
  predicate IsRunOf(results: seq<TestResult>, tests: seq<Test>, outcome: Test -> State) {
    && |results| == |tests|
    && forall i | 0 <= i < |tests| :: results[i] == TestResult(tests[i], outcome(tests[i]))
  }

  lemma RunHolds(results: seq<TestResult>, tests: seq<Test>, outcome: Test -> State, r: TestResult)
    requires IsRunOf(results, tests, outcome)
    ensures r in results <==> r.test in tests && r.state == outcome(r.test)
  {
    if r.test in tests && r.state == outcome(r.test) {
      var i :| 0 <= i < |tests| && tests[i] == r.test;
      assert results[i] == r;
    }
  }

  /** With the same test outcomes, a filtered run never certifies a higher level than
      the full run, because a filter keeps or drops whole levels. */
  lemma FilteredIsNoHigher(c: Certification, keep: string -> bool, outcome: Test -> State,
                           part: seq<TestResult>, full: seq<TestResult>, h: Option<string>, h': Option<string>)
    requires WellBuilt(c) && WellBuilt(c.(tests := Kept(c.tests, keep)))
    requires IsRunOf(part, Kept(c.tests, keep), outcome) && IsRunOf(full, c.tests, outcome)
    requires IsHighest(c.(tests := Kept(c.tests, keep)), part, h) && IsHighest(c, full, h')
    ensures h.Some? ==> h.value in c.allLevels
    ensures h'.Some? ==> h'.value in c.allLevels
    ensures LevelIndex(c, h) <= LevelIndex(c, h')
  {
    forall l | l in c.allLevels && Passed(part, l) ensures Passed(full, l) {
      PassedPartIsPassed(c.tests, keep, outcome, part, full, l);
    }
    MorePassedIsNoLower(c.(tests := Kept(c.tests, keep)), c, part, full, h, h');
  }

  lemma PassedPartIsPassed(tests: seq<Test>, keep: string -> bool, outcome: Test -> State,
                           part: seq<TestResult>, full: seq<TestResult>, l: string)
    requires IsRunOf(part, Kept(tests, keep), outcome) && IsRunOf(full, tests, outcome) && Passed(part, l)
    ensures Passed(full, l)
  {
    var r :| r in part && r.test.level == l;
    RunHolds(part, Kept(tests, keep), outcome, r);
    KeptAre(tests, keep, r.test);
    RunHolds(full, tests, outcome, r);
    forall r' | r' in full && r'.test.level == l ensures r'.state == PASS {
      RunHolds(full, tests, outcome, r');
      KeptAre(tests, keep, r'.test);
      RunHolds(part, Kept(tests, keep), outcome, r');
    }
  }

  /** When the certification as a whole passes, the levels that were run decide: the
      certified level is the last of the longest prefix of levels that were run, or
      the cap; so an unfiltered manifest certifies the cap, or else its last level. */
  lemma OverallPassCertifies(c: Certification, results: seq<TestResult>, overall: State, highest: Option<string>)
    requires WellBuilt(c) && IsHighest(c, results, highest) && IsWorst(overall, results) && overall == PASS
    requires |results| == |c.tests| && forall i | 0 <= i < |results| :: results[i].test == c.tests[i]
    ensures c.allLevels != [] ==> (highest.Some? <==> exists t | t in c.tests :: t.level == c.allLevels[0])
    ensures Define(c.tests, [], c.cap) == Some(c) && c.allLevels != [] ==>
      highest == Some(if c.cap.Some? then c.cap.value else c.allLevels[|c.allLevels| - 1])
  {
    hide LevelsOf, IndexOf, Passed, Define;
    if c.allLevels != [] {
      MentionedIsPassed(c.tests, results, overall, c.allLevels[0]);
    }
    if Define(c.tests, [], c.cap) == Some(c) && c.allLevels != [] {
      DefineDecides(c.tests, c.cap);
      forall l | l in c.allLevels ensures Passed(results, l) {
        MentionedIsPassed(c.tests, results, overall, l);
      }
      assert Reaches(results, c.allLevels, |c.allLevels|);
      HighestIsReached(c, results, highest);
    }
  }

  /** In a certification that passes, the levels passed are those with tests. */
  lemma MentionedIsPassed(tests: seq<Test>, results: seq<TestResult>, overall: State, l: string)
    requires IsWorst(overall, results) && overall == PASS
    requires |results| == |tests| && forall i | 0 <= i < |results| :: results[i].test == tests[i]
    ensures Passed(results, l) <==> exists t | t in tests :: t.level == l
  {
    if t :| t in tests && t.level == l {
      var i :| 0 <= i < |tests| && tests[i] == t;
      assert results[i] in results;
    }
    if Passed(results, l) {
      var r :| r in results && r.test.level == l;
      assert r.test in tests;
    }
  }
}
