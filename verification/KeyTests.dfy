/** `test_tcb` and `test_svn`, and what firmware passes them
    (sev_verify/cert_tests/c3_0/c3_0_0_1/key_derivation_test.py). */
module KeyTests {
  import opened Models
  import opened TcbVersions
  import opened KeyDerivation
  import Reports = AttestationReports

  lemma {:induction false} AbovePrefix(pack: Packing, parts: seq<Part>, k: nat)
    requires k <= |parts|
    ensures AboveOf(pack, parts[..k]) <= AboveOf(pack, parts)
  {
    hide AboveColumn;
    if k < |parts| {
      AbovePrefix(pack, parts[..|parts| - 1], k);
      assert parts[..|parts| - 1][..k] == parts[..k];
    } else {
      assert parts[..k] == parts;
    }
  }

  lemma {:induction false} SweepPrefix(pack: Packing, parts: seq<Part>, k: nat)
    requires k <= |parts|
    ensures SweepOf(pack, parts[..k]) <= SweepOf(pack, parts)
  {
    hide SweepColumn;
    if k < |parts| {
      SweepPrefix(pack, parts[..|parts| - 1], k);
      assert parts[..|parts| - 1][..k] == parts[..k];
    } else {
      assert parts[..k] == parts;
    }
  }

  predicate NoneBreaks(f: Firmware, first: nat, asked: seq<nat>) {
    forall i | 0 <= i < |asked| :: !f(first + i, asked[i]).Breakdown?
  }

  /** Asking stopped at the request that broke down. */
  predicate StoppedAt(f: Firmware, first: nat, asked: seq<nat>, all: seq<nat>) {
    && 0 < |asked| <= |all| && asked <= all
    && f(first + |asked| - 1, asked[|asked| - 1]).Breakdown?
  }

  predicate AllRefused(f: Firmware, first: nat, asked: seq<nat>) {
    forall i | 0 <= i < |asked| :: f(first + i, asked[i]).Refused?
  }

  lemma OneMoreAsked(f: Firmware, first: nat, asked: seq<nat>, t: nat)
    ensures var a, asked' := f(first + |asked|, t), asked + [t];
      && (NoneBreaks(f, first, asked') <==> NoneBreaks(f, first, asked) && !a.Breakdown?)
      && (AllRefused(f, first, asked') <==> AllRefused(f, first, asked) && a.Refused?)
      && Collected(f, first, asked')
         == if Gives(a) then Collected(f, first, asked)[t := a.bytes] else Collected(f, first, asked)
  {
    var asked' := asked + [t];
    assert asked'[..|asked|] == asked && asked'[|asked|] == t;
    assert forall i | 0 <= i < |asked| :: asked'[i] == asked[i];
  }

  /** Requests that should all be refused, after the requests `done`. */
  method AskRefused(f: Firmware, first: nat, column: seq<nat>, done: seq<nat>, enforced: bool)
    returns (asked: seq<nat>, passed: bool, broke: bool)
    requires NoneBreaks(f, first, done) && (enforced <==> AllRefused(f, first, done))
    ensures !broke ==> asked == done + column && NoneBreaks(f, first, asked)
    ensures !broke ==> (passed <==> AllRefused(f, first, asked))
    ensures broke ==> StoppedAt(f, first, asked, done + column)
  {
    hide NoneBreaks, AllRefused, Collected;
    asked, passed, broke := done, enforced, false;
    for j := 0 to |column|
      invariant asked == done + column[..j] && !broke
      invariant NoneBreaks(f, first, asked) && (passed <==> AllRefused(f, first, asked))
    {
      var answer := f(first + |asked|, column[j]);
      OneMoreAsked(f, first, asked, column[j]);
      asked := asked + [column[j]];
      assert column[..j] + [column[j]] == column[..j + 1];
      if answer.Breakdown? {
        broke := true;
        return;
      }
      if answer.Key? {
        passed := false;
      }
    }
    assert column[..|column|] == column;
  }

  lemma ColumnFits(pack: Packing, parts: seq<Part>, k: nat)
    requires k < |parts|
    ensures AboveOf(pack, parts[..k]) + AboveColumn(pack, parts[k]) == AboveOf(pack, parts[..k + 1])
    ensures AboveOf(pack, parts[..k + 1]) <= AboveOf(pack, parts)
  {
    hide AboveColumn;
    AbovePrefix(pack, parts, k + 1);
    var init := parts[..k + 1];
    assert init[..|init| - 1] == parts[..k] && init[|init| - 1] == parts[k];
  }

  /** The requests above the bound, component by component. */
  method AskAbove(f: Firmware, first: nat, pack: Packing, parts: seq<Part>)
    returns (asked: seq<nat>, passed: bool, broke: bool)
    ensures !broke ==> asked == AboveOf(pack, parts) && NoneBreaks(f, first, asked)
    ensures !broke ==> (passed <==> AllRefused(f, first, asked))
    ensures broke ==> StoppedAt(f, first, asked, AboveOf(pack, parts))
  {
    asked, passed, broke := [], true, false;
    for k := 0 to |parts|
      invariant asked == AboveOf(pack, parts[..k]) && !broke
      invariant NoneBreaks(f, first, asked) && (passed <==> AllRefused(f, first, asked))
    {
      ColumnFits(pack, parts, k);
      asked, passed, broke := AskRefused(f, first, AboveColumn(pack, parts[k]), asked, passed);
      if broke {
        return;
      }
    }
    assert parts[..|parts|] == parts;
  }

  // ── The sweep ───────────────────────────────────────────────────

  /** What the sweep has asked after k components and j values of the next one. */
  function SweptSoFar(pack: Packing, parts: seq<Part>, k: nat, j: nat): seq<nat>
    requires k < |parts| && j <= |SweepValues(parts[k].launch)|
  {
    if j == 0 then (if k == 0 then [] else SweepOf(pack, parts[..k]))
    else SweepOf(pack, parts[..k]) + SweepColumn(pack, parts[k])[..j - 1]
  }

  lemma SweepStartsAtZero(pack: Packing, parts: seq<Part>)
    ensures |SweepOf(pack, parts)| > 0 && SweepOf(pack, parts)[0] == 0
  {
    SweepPrefix(pack, parts, 0);
  }

  lemma ColumnEnds(pack: Packing, parts: seq<Part>, k: nat)
    requires k < |parts|
    ensures SweepOf(pack, parts[..k + 1]) == SweepOf(pack, parts[..k]) + SweepColumn(pack, parts[k])
  {
    hide SweepColumn;
    var init := parts[..k + 1];
    assert init[..|init| - 1] == parts[..k] && init[|init| - 1] == parts[k];
  }

  lemma ShorterIsPrefix(s: seq<nat>, column: seq<nat>, n: nat)
    requires n <= |column|
    ensures s + column[..n] <= s + column
  {
  }

  lemma SweptPrefix(pack: Packing, parts: seq<Part>, k: nat, j: nat)
    requires k < |parts| && j <= |SweepValues(parts[k].launch)|
    ensures SweptSoFar(pack, parts, k, j) <= SweepOf(pack, parts)
  {
    hide SweepOf;
    SweepPrefix(pack, parts, k + 1);
    ColumnEnds(pack, parts, k);
    if j > 0 {
      ShorterIsPrefix(SweepOf(pack, parts[..k]), SweepColumn(pack, parts[k]), j - 1);
    }
  }

  /** The next value is new, unless it is the zero of a later component. */
  lemma OneMoreSwept(pack: Packing, parts: seq<Part>, k: nat, j: nat)
    requires PartsFit(pack, parts) && k < |parts| && j < |SweepValues(parts[k].launch)|
    ensures var asked, t := SweptSoFar(pack, parts, k, j), pack(parts[k].component, SweepValues(parts[k].launch)[j]);
      SweptSoFar(pack, parts, k, j + 1) == if t in asked then asked else asked + [t]
  {
    assert parts[k] in parts;
    if j == 0 {
      SweepStartsAtZero(pack, parts[..k]);
      assert SweepColumn(pack, parts[k])[..0] == [];
    } else {
      SweepIsEconomical(pack, parts);
      SweptPrefix(pack, parts, k, j + 1);
      LastIsNew(SweepOf(pack, parts[..k]), SweepColumn(pack, parts[k]), j, SweepOf(pack, parts));
    }
  }

  lemma LastIsNew(s: seq<nat>, column: seq<nat>, j: nat, all: seq<nat>)
    requires 0 < j <= |column| && s + column[..j] <= all && Distinct(all)
    ensures s + column[..j] == s + column[..j - 1] + [column[j - 1]]
    ensures column[j - 1] !in s + column[..j - 1]
  {
    var n := |s| + j - 1;
    assert all[n] == (s + column[..j])[n] == column[j - 1];
    var before := s + column[..j - 1];
    forall i | 0 <= i < |before| ensures before[i] != column[j - 1] {
      assert all[i] == (s + column[..j])[i];
    }
  }

  lemma SweptNone(pack: Packing, parts: seq<Part>, k: nat)
    requires k < |parts|
    ensures SweptSoFar(pack, parts, k, 0) == if k == 0 then [] else SweepOf(pack, parts[..k])
  {
    hide SweepOf, SweepColumn;
  }

  lemma SweptAll(pack: Packing, parts: seq<Part>, k: nat)
    requires k < |parts|
    ensures SweptSoFar(pack, parts, k, |SweepValues(parts[k].launch)|) == SweepOf(pack, parts[..k + 1])
  {
    assert parts[..k + 1][..k] == parts[..k];
    var column := SweepColumn(pack, parts[k]);
    assert column[..|column|] == column;
  }

  /** The requests, the set that keeps any from being made twice, and the keys. */
  datatype SweepState = SweepState(asked: seq<nat>, attempted: set<nat>, keys: map<nat, seq<byte>>)

  ghost predicate InStep(f: Firmware, first: nat, s: SweepState) {
    && (forall t :: t in s.attempted <==> t in s.asked) && |s.attempted| == |s.asked|
    && NoneBreaks(f, first, s.asked) && s.keys == Collected(f, first, s.asked)
  }

  lemma StaysInStep(f: Firmware, first: nat, s: SweepState, tcb: nat)
    requires InStep(f, first, s) && tcb !in s.attempted
    ensures var a := f(first + |s.asked|, tcb);
      a.Breakdown? || InStep(f, first, SweepState(s.asked + [tcb], s.attempted + {tcb},
                                                  if Gives(a) then s.keys[tcb := a.bytes] else s.keys))
  {
    OneMoreAsked(f, first, s.asked, tcb);
  }

  /** One value of the sweep. */
  method SweepValue(f: Firmware, first: nat, s: SweepState, tcb: nat) returns (s': SweepState, broke: bool)
    requires InStep(f, first, s)
    ensures s'.asked == if tcb in s.asked then s.asked else s.asked + [tcb]
    ensures broke ==> StoppedAt(f, first, s'.asked, s'.asked)
    ensures !broke ==> InStep(f, first, s')
  {
    s', broke := s, false;
    if tcb !in s.attempted {
      StaysInStep(f, first, s, tcb);
      var answer := f(first + |s.asked|, tcb);
      var keys := s.keys;
      if answer.Key? && answer.bytes != [] {
        keys := keys[tcb := answer.bytes];
      }
      broke := answer.Breakdown?;
      s' := SweepState(s.asked + [tcb], s.attempted + {tcb}, keys);
    }
  }

  /** The sensitivity sweep. */
  method AskSweep(f: Firmware, first: nat, pack: Packing, parts: seq<Part>)
    returns (s: SweepState, broke: bool)
    requires PartsFit(pack, parts) && parts != []
    ensures !broke ==> s.asked == SweepOf(pack, parts) && InStep(f, first, s)
    ensures broke ==> StoppedAt(f, first, s.asked, SweepOf(pack, parts))
  {
    hide SweptSoFar, SweepOf, SweepColumn, PartsFit;
    s, broke := SweepState([], {}, map[]), false;
    for k := 0 to |parts|
      invariant s.asked == if k == 0 then [] else SweepOf(pack, parts[..k])
      invariant InStep(f, first, s) && !broke
    {
      var values := SweepValues(parts[k].launch);
      SweptNone(pack, parts, k);
      for j := 0 to |values|
        invariant s.asked == SweptSoFar(pack, parts, k, j)
        invariant InStep(f, first, s) && !broke
      {
        OneMoreSwept(pack, parts, k, j);
        SweptPrefix(pack, parts, k, j + 1);
        s, broke := SweepValue(f, first, s, pack(parts[k].component, values[j]));
        if broke {
          return;
        }
      }
      SweptAll(pack, parts, k);
    }
    assert parts[..|parts|] == parts;
  }

  // ── The verdict ─────────────────────────────────────────────────

  lemma ControlDecides(f: Firmware, e: Exam)
    requires !f(0, e.control).Key?
    ensures Judged(f, e, if f(0, e.control).Breakdown? then Raised else Failed, [e.control])
  {
  }

  lemma AboveDecides(f: Firmware, e: Exam, asked: seq<nat>, broke: bool)
    requires f(0, e.control).Key?
    requires broke ==> StoppedAt(f, 1, asked, e.above)
    requires !broke ==> asked == e.above && NoneBreaks(f, 1, asked) && !AllRefused(f, 1, asked)
    ensures Judged(f, e, if broke then Raised else Failed, [e.control] + asked)
  {
    if broke {
      var i := |asked| - 1;
      assert e.above[i] == asked[i] && AboveAnswer(f, e, i).Breakdown?;
    } else {
      var i :| 0 <= i < |asked| && !f(1 + i, asked[i]).Refused?;
      assert !AboveAnswer(f, e, i).Refused?;
      assert forall i | 0 <= i < |e.above| :: !AboveAnswer(f, e, i).Breakdown?;
    }
  }

  lemma BoundHolds(f: Firmware, e: Exam)
    requires f(0, e.control).Key? && AllRefused(f, 1, e.above)
    ensures Bounded(f, e)
    ensures BreaksDown(f, e) <==> !NoneBreaks(f, 1 + |e.above|, e.sweep)
  {
    if !NoneBreaks(f, 1 + |e.above|, e.sweep) {
      var i :| 0 <= i < |e.sweep| && f(1 + |e.above| + i, e.sweep[i]).Breakdown?;
      assert SweepAnswer(f, e, i).Breakdown?;
    }
  }

  lemma SweepBreaks(f: Firmware, e: Exam, asked: seq<nat>)
    requires f(0, e.control).Key? && AllRefused(f, 1, e.above)
    requires StoppedAt(f, 1 + |e.above|, asked, e.sweep)
    ensures Judged(f, e, Raised, [e.control] + e.above + asked)
  {
    BoundHolds(f, e);
    var i := |asked| - 1;
    assert e.sweep[i] == asked[i] && SweepAnswer(f, e, i).Breakdown?;
  }

  lemma SweepDecides(f: Firmware, e: Exam, keys: map<nat, seq<byte>>)
    requires f(0, e.control).Key? && AllRefused(f, 1, e.above)
    requires NoneBreaks(f, 1 + |e.above|, e.sweep) && Distinct(e.sweep)
    requires keys == Collected(f, 1 + |e.above|, e.sweep)
    ensures Judged(f, e, if |e.sweep| < 2 || (|keys| >= 2 && |keys.Values| == |keys|) then Passed else Failed,
                   Requests(e))
  {
    BoundHolds(f, e);
    KeysDecide(f, e);
  }

  // ── The two tests ───────────────────────────────────────────────

  /** The host's layout and the launch TCB that the report gives; None where the host's
      generation is unknown, the report does not parse, or it has no launch TCB. */
  function LaunchOf(data: seq<byte>, host: Option<Reports.Generation>): (r: Option<(Layout, TcbVersion)>)
    ensures r.Some? ==> ByteSized(r.value.1) && r.value.1 == Held(r.value.1, r.value.0)
  {
    if host.None? then None
    else
      var report := Reports.Parse(data, host);
      if report.Err? || report.value.launchTcb.None? then None
      else Some((host.value.layout, report.value.launchTcb.value))
  }

  /** Exactly these reports have one, on a host of a known generation: those of the right
      size, of version 3 or later, whose CPUID is of that generation or of none known.  It
      is read from offset 0x1F0 with the host's layout. */
  lemma LaunchIsKnownIff(data: seq<byte>, host: Option<Reports.Generation>)
    ensures LaunchOf(data, host).Some? <==>
              && host.Some? && |data| == Reports.REPORT_SIZE && Reports.VersionOf(data) >= 3
              && var cpuid := Reports.CpuidOf(data);
                 Reports.Resolve(cpuid.family, cpuid.model) in {None, host}
    ensures LaunchOf(data, host).Some? ==>
              LaunchOf(data, host).value
              == (host.value.layout, FromBytes(Reports.FieldAt(data, 0x1F0, 8), host.value.layout))
  {
    hide Reports.Resolve, Reports.VersionOf, Reports.CpuidOf;
    Reports.ParseDecides(data, host);
    if LaunchOf(data, host).Some? {
      Reports.ParseReadsAbi(data, host);
    }
  }

  /** `test_tcb`: the verdict, and the TCBs asked for. */
  method TestTcb(f: Firmware, data: seq<byte>, host: Option<Reports.Generation>)
    returns (verdict: Verdict, asked: seq<nat>)
    ensures LaunchOf(data, host).None? ==> verdict == Failed && asked == []
    ensures LaunchOf(data, host).Some? ==>
      var (layout, launch) := LaunchOf(data, host).value; Judged(f, TcbExam(layout, launch), verdict, asked)
  {
    hide LaunchOf, Judged, PartsOf, AboveOf, SweepOf, Collected, NoneBreaks, AllRefused, StoppedAt, Distinct;
    var found := LaunchOf(data, host);
    if found.None? {
      return Failed, [];
    }
    var layout, launch := found.value.0, found.value.1;
    var parts := PartsOf(launch);
    ghost var e := TcbExam(layout, launch);
    PartsOfFit(layout, launch);
    SweepIsEconomical(Pack(layout), parts);

    var control := ToU64(launch, layout);
    asked := [control];
    var answer := f(0, control);
    if !answer.Key? {
      ControlDecides(f, e);
      verdict := if answer.Breakdown? then Raised else Failed;
      return;
    }
    var above, enforced, broke := AskAbove(f, 1, Pack(layout), parts);
    asked := asked + above;
    if broke || !enforced {
      AboveDecides(f, e, above, broke);
      verdict := if broke then Raised else Failed;
      return;
    }
    var s;
    s, broke := AskSweep(f, |asked|, Pack(layout), parts);
    asked := asked + s.asked;
    if broke {
      SweepBreaks(f, e, s.asked);
      verdict := Raised;
      return;
    }
    SweepDecides(f, e, s.keys);
    if |s.attempted| < 2 {
      verdict := Passed;
    } else if |s.keys| < 2 {
      verdict := Failed;
    } else {
      verdict := if |s.keys.Values| == |s.keys| then Passed else Failed;
    }
  }

  /** The verdict of an exam. */
  function ExamVerdict(f: Firmware, e: Exam): Verdict {
    if BreaksDown(f, e) then Raised else if Satisfies(f, e) then Passed else Failed
  }

  lemma JudgedIsVerdict(f: Firmware, e: Exam, verdict: Verdict, asked: seq<nat>)
    requires Judged(f, e, verdict, asked)
    ensures verdict == ExamVerdict(f, e)
  {
    hide BreaksDown, Bounded, Sensitive;
  }

  lemma NothingAsked(f: Firmware, first: nat)
    ensures NoneBreaks(f, first, []) && Collected(f, first, []) == map[]
  {
  }

  lemma StopsAtLast(f: Firmware, first: nat, asked: seq<nat>, all: seq<nat>)
    requires 0 < |asked| && asked <= all && f(first + |asked| - 1, asked[|asked| - 1]).Breakdown?
    ensures StoppedAt(f, first, asked, all)
  {
  }

  /** The SVN sweep, whose values are asked for as they come. */
  method AskValues(f: Firmware, first: nat, values: seq<nat>)
    returns (asked: seq<nat>, keys: map<nat, seq<byte>>, broke: bool)
    ensures !broke ==> asked == values && NoneBreaks(f, first, asked) && keys == Collected(f, first, asked)
    ensures broke ==> StoppedAt(f, first, asked, values)
  {
    hide NoneBreaks, Collected, StoppedAt;
    asked, keys, broke := [], map[], false;
    NothingAsked(f, first);
    for j := 0 to |values|
      invariant asked == values[..j] && NoneBreaks(f, first, asked) && keys == Collected(f, first, asked) && !broke
    {
      var answer := f(first + |asked|, values[j]);
      OneMoreAsked(f, first, asked, values[j]);
      assert values[..j] + [values[j]] == values[..j + 1] <= values;
      asked := asked + [values[j]];
      if answer.Breakdown? {
        StopsAtLast(f, first, asked, values);
        broke := true;
        return;
      }
      if answer.Key? && answer.bytes != [] {
        keys := keys[values[j] := answer.bytes];
      }
    }
    assert values[..|values|] == values;
  }

  /** `test_svn` once the report gave the guest's SVN. */
  method TestBound(f: Firmware, bound: nat) returns (verdict: Verdict, asked: seq<nat>)
    ensures Judged(f, SvnExam(bound), verdict, asked)
  {
    ghost var e := SvnExam(bound);
    asked := [bound];
    var answer := f(0, bound);
    if !answer.Key? {
      ControlDecides(f, e);
      verdict := if answer.Breakdown? then Raised else Failed;
      return;
    }
    var above, enforced, broke := AskRefused(f, 1, [bound + 1, bound + 2, bound + 3], [], true);
    assert [] + e.above == e.above;
    asked := asked + above;
    if broke || !enforced {
      AboveDecides(f, e, above, broke);
      verdict := if broke then Raised else Failed;
      return;
    }
    if bound == 0 {
      SweepDecides(f, e, map[]);
      return Passed, asked;
    }
    var swept, keys;
    swept, keys, broke := AskValues(f, |asked|, SweepValues(bound));
    asked := asked + swept;
    if broke {
      SweepBreaks(f, e, swept);
      verdict := Raised;
      return;
    }
    SweepDecides(f, e, keys);
    if |keys| < 2 {
      verdict := Failed;
    } else {
      verdict := if |keys.Values| == |keys| then Passed else Failed;
    }
  }

  /** `test_svn`: the verdict, and the SVNs asked for. */
  method TestSvn(f: Firmware, data: seq<byte>, host: Option<Reports.Generation>)
    returns (verdict: Verdict, asked: seq<nat>)
    ensures host.None? || Reports.Parse(data, host).Err? ==> verdict == Failed && asked == []
    ensures host.Some? && Reports.Parse(data, host).Ok? ==>
      Judged(f, SvnExam(Reports.Parse(data, host).value.guestSvn), verdict, asked)
  {
    if host.None? || Reports.Parse(data, host).Err? {
      return Failed, [];
    }
    verdict, asked := TestBound(f, Reports.Parse(data, host).value.guestSvn);
  }

  // ── Who passes ──────────────────────────────────────────────────

  /** The bound as the specification has it: every component at most the launch TCB's. */
  predicate AnswersRightly(f: Firmware, n: nat, t: TcbVersion, layout: Layout, launch: TcbVersion) {
    var a := f(n, ToU64(t, layout));
    if AtMost(t, launch) then Gives(a) else a.Refused?
  }

  /** No key is derived from two TCBs. */
  ghost predicate DerivesApart(f: Firmware) {
    forall n, m, t, u | t != u && Gives(f(n, t)) && Gives(f(m, u)) :: f(n, t).bytes != f(m, u).bytes
  }

  ghost predicate Conforms(f: Firmware, layout: Layout, launch: TcbVersion) {
    && (forall n, t | ByteSized(t) && t == Held(t, layout) :: AnswersRightly(f, n, t, layout, launch))
    && DerivesApart(f)
  }

  /** Firmware that does: it reads the request by its layout, and derives a key from it
      that tells it apart. */
  function Genuine(layout: Layout, launch: TcbVersion): Firmware {
    (n: nat, t: nat) =>
      if t < Power256(8) && AtMost(FromBytes(LeBytes(t, 8), layout), launch) then Key(LeBytes(t, 8)) else Refused
  }

  lemma GenuineConforms(layout: Layout, launch: TcbVersion)
    ensures Conforms(Genuine(layout, launch), layout, launch)
  {
    var f := Genuine(layout, launch);
    forall n, t | ByteSized(t) && t == Held(t, layout) ensures AnswersRightly(f, n, t, layout, launch) {
      DecodeEncoded(t, layout);
      EncodingIsPacking(t, layout);
      LeRoundTripBack(Packed(t, layout));
    }
    forall n, m, t, u | t != u && Gives(f(n, t)) && Gives(f(m, u)) ensures f(n, t).bytes != f(m, u).bytes {
      LeRoundTrip(t, 8);
      LeRoundTrip(u, 8);
    }
  }

  lemma SinglesCompare(layout: Layout, launch: TcbVersion, p: Part, v: byte)
    requires ByteSized(launch) && launch == Held(launch, layout) && p in PartsOf(launch)
    ensures var t := Single(layout, p.component, v);
      ByteSized(t) && t == Held(t, layout) && (AtMost(t, launch) <==> v <= p.launch)
  {
  }

  lemma SingleIsAnswered(f: Firmware, layout: Layout, launch: TcbVersion, n: nat, p: Part, v: byte)
    requires ByteSized(launch) && launch == Held(launch, layout) && Conforms(f, layout, launch)
    requires p in PartsOf(launch)
    ensures var a := f(n, Pack(layout)(p.component, v)); if v <= p.launch then Gives(a) else a.Refused?
  {
    SinglesCompare(layout, launch, p, v);
    assert AnswersRightly(f, n, Single(layout, p.component, v), layout, launch);
  }

  lemma {:induction false} AboveIsAbove(layout: Layout, parts: seq<Part>, t: nat)
    requires t in AboveOf(Pack(layout), parts)
    ensures exists p, v: byte :: p in parts && v > p.launch && t == Pack(layout)(p.component, v)
  {
    var init, p := parts[..|parts| - 1], parts[|parts| - 1];
    if t in AboveOf(Pack(layout), init) {
      AboveIsAbove(layout, init, t);
    } else {
      var j :| 0 <= j < |AboveColumn(Pack(layout), p)| && AboveColumn(Pack(layout), p)[j] == t;
      var v := AboveValues(p.launch)[j];
      assert v in AboveValues(p.launch) && p in parts;
      assert p.launch < v < 256 && t == Pack(layout)(p.component, v);
    }
  }

  lemma AboveIsRefused(f: Firmware, layout: Layout, launch: TcbVersion, n: nat, t: nat)
    requires ByteSized(launch) && launch == Held(launch, layout) && Conforms(f, layout, launch)
    requires t in AboveOf(Pack(layout), PartsOf(launch))
    ensures f(n, t).Refused?
  {
    AboveIsAbove(layout, PartsOf(launch), t);
    var p, v: byte :| p in PartsOf(launch) && v > p.launch && t == Pack(layout)(p.component, v);
    SingleIsAnswered(f, layout, launch, n, p, v);
  }

  lemma SweptIsGiven(f: Firmware, layout: Layout, launch: TcbVersion, n: nat, t: nat)
    requires ByteSized(launch) && launch == Held(launch, layout) && Conforms(f, layout, launch)
    requires t in SweepOf(Pack(layout), PartsOf(launch))
    ensures Gives(f(n, t))
  {
    SweepIsSwept(Pack(layout), PartsOf(launch), t);
    if t == 0 {
      var p := PartsOf(launch)[0];
      PackingIsInjective(layout, p.component, 0, p.component, 0);
      SingleIsAnswered(f, layout, launch, n, p, 0);
    } else {
      var p, v :| p in PartsOf(launch) && 1 <= v <= p.launch && t == Pack(layout)(p.component, v);
      SingleIsAnswered(f, layout, launch, n, p, v);
    }
  }

  /** Conforming firmware is accepted, whatever the launch TCB. */
  lemma ConformingFirmwareSatisfies(f: Firmware, layout: Layout, launch: TcbVersion)
    requires ByteSized(launch) && launch == Held(launch, layout) && Conforms(f, layout, launch)
    ensures var e := TcbExam(layout, launch); Satisfies(f, e) && KeysDiffer(f, e)
  {
    hide AboveOf, SweepOf, Distinct, ToU64;
    var e := TcbExam(layout, launch);
    assert AnswersRightly(f, 0, launch, layout, launch);
    forall i | 0 <= i < |e.above| ensures AboveAnswer(f, e, i).Refused? {
      AboveIsRefused(f, layout, launch, 1 + i, e.above[i]);
    }
    forall i | 0 <= i < |e.sweep| ensures Gives(SweepAnswer(f, e, i)) {
      SweptIsGiven(f, layout, launch, 1 + |e.above| + i, e.sweep[i]);
    }
    TcbSweepIsSmall(layout, launch);
    if |e.sweep| >= 2 {
      assert Gives(SweepAnswer(f, e, 0)) && Gives(SweepAnswer(f, e, 1));
    }
    assert KeysDiffer(f, e) by {
      forall i, j | 0 <= i < j < |e.sweep| ensures SweepAnswer(f, e, i).bytes != SweepAnswer(f, e, j).bytes {
        assert e.sweep[i] != e.sweep[j] && Gives(SweepAnswer(f, e, i)) && Gives(SweepAnswer(f, e, j));
      }
    }
  }

  /** And so is firmware that keeps the SVN bound and derives a key of its own from
      every SVN. */
  lemma ConformingSvnSatisfies(f: Firmware, bound: nat)
    requires DerivesApart(f)
    requires forall n, v: nat :: if v <= bound then Gives(f(n, v)) else f(n, v).Refused?
    ensures Satisfies(f, SvnExam(bound))
  {
    var e := SvnExam(bound);
    forall i | 0 <= i < |e.sweep| ensures Gives(SweepAnswer(f, e, i)) {
      assert SweepValues(bound)[i] <= bound;
    }
    if bound > 0 {
      assert Gives(SweepAnswer(f, e, 0)) && Gives(SweepAnswer(f, e, 1));
      forall i, j | 0 <= i < j < |e.sweep| ensures SweepAnswer(f, e, i).bytes != SweepAnswer(f, e, j).bytes {
        assert e.sweep[i] != e.sweep[j] && Gives(SweepAnswer(f, e, i)) && Gives(SweepAnswer(f, e, j));
      }
    }
  }

  // ── What the tests do not see ───────────────────────────────────

  /** The same firmware, but refusing one request whenever it is made. */
  function Refusing(f: Firmware, r: nat): Firmware {
    (n: nat, t: nat) => if t == r then Refused else f(n, t)
  }

  /** Although every TCB up to the launch TCB should give a key, a refusal in the sweep
      is noted and passed over: firmware that is otherwise right still passes. */
  lemma RefusalGoesUnseen(f: Firmware, layout: Layout, launch: TcbVersion, k: nat)
    requires ByteSized(launch) && launch == Held(launch, layout) && Conforms(f, layout, launch)
    requires var e := TcbExam(layout, launch);
      |e.sweep| >= 3 && k < |e.sweep| && e.sweep[k] != e.control
    ensures var e := TcbExam(layout, launch); Satisfies(Refusing(f, e.sweep[k]), e)
  {
    hide AboveOf, SweepOf, ToU64, Conforms, Sensitive, KeysDiffer;
    var e := TcbExam(layout, launch);
    var g := Refusing(f, e.sweep[k]);
    ConformingFirmwareSatisfies(f, layout, launch);
    TcbSweepIsSmall(layout, launch);
    forall i | 0 <= i < |e.above| ensures AboveAnswer(g, e, i).Refused? {
      assert AboveAnswer(f, e, i).Refused?;
    }
    forall i | 0 <= i < |e.sweep| && i != k
      ensures SweepAnswer(g, e, i) == SweepAnswer(f, e, i) && Gives(SweepAnswer(f, e, i))
    {
      SweptIsGiven(f, layout, launch, 1 + |e.above| + i, e.sweep[i]);
    }
    RefusingStaysSensitive(f, g, e, k);
  }

  lemma RefusingStaysSensitive(f: Firmware, g: Firmware, e: Exam, k: nat)
    requires |e.sweep| >= 3 && k < |e.sweep| && KeysDiffer(f, e)
    requires SweepAnswer(g, e, k).Refused?
    requires forall i | 0 <= i < |e.sweep| && i != k ::
               SweepAnswer(g, e, i) == SweepAnswer(f, e, i) && Gives(SweepAnswer(f, e, i))
    ensures Sensitive(g, e)
    ensures forall i | 0 <= i < |e.sweep| :: !SweepAnswer(g, e, i).Breakdown?
  {
    var i, j := if k == 0 then 1 else 0, if k <= 1 then 2 else 1;
    assert Gives(SweepAnswer(g, e, i)) && Gives(SweepAnswer(g, e, j));
  }

  /** Every swept value gives a key, and all keys differ: what the sampled values are
      meant to show. */
  predicate SweepGives(f: Firmware, e: Exam) {
    (forall i | 0 <= i < |e.sweep| :: Gives(SweepAnswer(f, e, i))) && KeysDiffer(f, e)
  }

  /** Firmware that accepts the control and the first two swept values, and refuses
      everything else. */
  function Sparing(e: Exam): Firmware {
    (n: nat, t: nat) => if n == 0 || 1 + |e.above| < n < |e.above| + 3 then Key([1])
                        else if n == 1 + |e.above| && |e.sweep| >= 2 then Key([0]) else Refused
  }

  lemma SparingSatisfies(e: Exam)
    requires |e.sweep| != 2
    ensures Satisfies(Sparing(e), e)
    ensures |e.sweep| > 0 ==> !SweepGives(Sparing(e), e)
  {
    var f := Sparing(e);
    if |e.sweep| >= 3 {
      assert SweepAnswer(f, e, 0) == Key([0]) && SweepAnswer(f, e, 1) == Key([1]) && SweepAnswer(f, e, 2).Refused?;
    } else if |e.sweep| == 1 {
      assert SweepAnswer(f, e, 0).Refused?;
    }
  }

  lemma PairGives(f: Firmware, e: Exam)
    requires Satisfies(f, e) && |e.sweep| == 2
    ensures SweepGives(f, e)
  {
  }

  /** Over all firmware: a pass shows a key of its own for every swept value exactly
      when there are two of them, or none. */
  lemma PassCoversSweepIff(e: Exam)
    ensures (forall f: Firmware :: Satisfies(f, e) ==> SweepGives(f, e)) <==> |e.sweep| == 0 || |e.sweep| == 2
  {
    if |e.sweep| == 2 {
      forall f: Firmware | Satisfies(f, e) ensures SweepGives(f, e) {
        PairGives(f, e);
      }
    } else {
      SparingSatisfies(e);
    }
  }

  function ComponentSum(parts: seq<Part>): nat {
    if parts == [] then 0 else ComponentSum(parts[..|parts| - 1]) + parts[|parts| - 1].launch
  }

  lemma {:induction false} SmallTotals(parts: seq<Part>)
    ensures Total(parts) <= ComponentSum(parts)
    ensures Total(parts) == 1 <==> ComponentSum(parts) == 1
    ensures Total(parts) == 0 <==> ComponentSum(parts) == 0
  {
    if parts != [] {
      SmallTotals(parts[..|parts| - 1]);
    }
  }

  /** For TCBs: exactly when the launch TCB is zero but for one component at one. */
  lemma TcbPassCoversSweepIff(layout: Layout, launch: TcbVersion)
    requires ByteSized(launch) && launch == Held(launch, layout)
    ensures (forall f: Firmware :: Satisfies(f, TcbExam(layout, launch)) ==> SweepGives(f, TcbExam(layout, launch)))
            <==> launch.bootloader + launch.tee + launch.snp + launch.microcode + Or0(launch.fmc) == 1
  {
    hide Satisfies, SweepGives, SweepOf, AboveOf;
    PassCoversSweepIff(TcbExam(layout, launch));
    TcbSweepIsSmall(layout, launch);
    SmallTotals(PartsOf(launch));
    SumOfParts(launch);
  }

  lemma SumOfParts(launch: TcbVersion)
    requires ByteSized(launch)
    ensures ComponentSum(PartsOf(launch))
            == launch.bootloader + launch.tee + launch.snp + launch.microcode + Or0(launch.fmc)
  {
    var p := PartsOf(launch);
    var core := [Part(BootLoader, launch.bootloader), Part(Tee, launch.tee), Part(Snp, launch.snp),
                 Part(Microcode, launch.microcode)];
    assert core[..3][..2] == core[..2] && core[..3][..2][..1] == core[..1] && core[..1][..0] == [];
    assert ComponentSum(core[..1]) == launch.bootloader;
    assert ComponentSum(core[..2]) == ComponentSum(core[..1]) + launch.tee by { assert core[..2][..1] == core[..1]; }
    assert ComponentSum(core[..3]) == ComponentSum(core[..2]) + launch.snp;
    assert ComponentSum(core) == ComponentSum(core[..3]) + launch.microcode;
    if launch.fmc.Some? {
      assert p == core + [Part(Fmc, launch.fmc.value)] && p[..4] == core;
    } else {
      assert p == core;
    }
  }

  /** For SVNs: exactly when the bound is zero or one. */
  lemma SvnPassCoversSweepIff(bound: nat)
    ensures (forall f: Firmware :: Satisfies(f, SvnExam(bound)) ==> SweepGives(f, SvnExam(bound))) <==> bound <= 1
  {
    PassCoversSweepIff(SvnExam(bound));
  }

  /** A verdict depends on the answers to the exam's own requests alone, which for a
      TCB are at most 92 of the 2^32 or 2^40 versions. */
  lemma OnlyRequestsMatter(f: Firmware, g: Firmware, e: Exam)
    requires forall k | 0 <= k < |Requests(e)| :: f(k, Requests(e)[k]) == g(k, Requests(e)[k])
    ensures Satisfies(f, e) <==> Satisfies(g, e)
    ensures BreaksDown(f, e) <==> BreaksDown(g, e)
  {
    assert f(0, e.control) == g(0, e.control) by { assert Requests(e)[0] == e.control; }
    forall i | 0 <= i < |e.above| ensures AboveAnswer(f, e, i) == AboveAnswer(g, e, i) {
      assert Requests(e)[1 + i] == e.above[i];
    }
    forall i | 0 <= i < |e.sweep| ensures SweepAnswer(f, e, i) == SweepAnswer(g, e, i) {
      assert Requests(e)[1 + |e.above| + i] == e.sweep[i];
    }
  }

  lemma {:induction false} AboveIsSmall(pack: Packing, parts: seq<Part>)
    ensures |AboveOf(pack, parts)| <= 3 * |parts|
  {
    if parts != [] {
      AboveIsSmall(pack, parts[..|parts| - 1]);
    }
  }

  lemma FewRequests(layout: Layout, launch: TcbVersion)
    requires ByteSized(launch) && launch == Held(launch, layout)
    ensures |Requests(TcbExam(layout, launch))| <= 92
  {
    PartsOfFit(layout, launch);
    AboveIsSmall(Pack(layout), PartsOf(launch));
    TcbSweepIsSmall(layout, launch);
  }
}
