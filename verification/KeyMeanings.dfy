/** What the bound tests of derived keys ask and accept, said of TCB versions and SVNs
    (sev_verify/cert_tests/c3_0/c3_0_0_1/key_derivation_test.py). */
module KeyMeanings {
  import opened Models
  import opened TcbVersions
  import opened KeyDerivation
  import opened KeyTests

  // ── Which values are tried ──────────────────────────────────────

  /** From 16 on, three values at either end and three around the middle. */
  predicate Sampled(v: int, max: nat) {
    0 <= v <= max && (max < 16 || v <= 2 || max - 2 <= v || max / 2 - 1 <= v <= max / 2 + 1)
  }

  lemma SweepValuesAre(max: nat, v: nat)
    ensures v in SweepValues(max) <==> Sampled(v, max)
  {
    if max < 16 {
      assert v <= max ==> SweepValues(max)[v] == v;
    }
  }

  /** The components in the order of the code; there is no FMC but on Turin. */
  function Components(t: TcbVersion): (c: seq<int>)
    ensures |c| == 5
  {
    [t.bootloader, t.tee, t.snp, t.microcode, if t.fmc.Some? then t.fmc.value else 0]
  }

  predicate Fits(t: TcbVersion, layout: Layout) {
    (forall k | 0 <= k < 5 :: 0 <= Components(t)[k] <= 255) && (t.fmc.Some? <==> layout.Turin?)
  }

  /** No component is set but perhaps the k-th. */
  predicate OnlySets(t: TcbVersion, k: nat) {
    k < 5 && forall j | 0 <= j < 5 && j != k :: Components(t)[j] == 0
  }

  /** One component at one to three above the launch value, the others zero. */
  predicate IsAbove(t: TcbVersion, launch: TcbVersion, layout: Layout) {
    && Fits(t, layout)
    && exists k | 0 <= k < 5 ::
         OnlySets(t, k) && Components(launch)[k] < Components(t)[k] <= Components(launch)[k] + 3
  }

  /** One component at a sampled value up to the launch value, the others zero. */
  predicate IsSampled(t: TcbVersion, launch: TcbVersion, layout: Layout) {
    && Fits(t, layout) && Fits(launch, layout)
    && exists k | 0 <= k < 5 :: OnlySets(t, k) && Sampled(Components(t)[k], Components(launch)[k])
  }

  // ── The lists of requests hold these ────────────────────────────

  lemma {:induction false} AboveHolds(pack: Packing, parts: seq<Part>, n: nat)
    ensures n in AboveOf(pack, parts)
            <==> exists p, v: byte :: p in parts && p.launch < v <= p.launch + 3 && n == pack(p.component, v)
  {
    if parts != [] {
      var init, p := parts[..|parts| - 1], parts[|parts| - 1];
      AboveHolds(pack, init, n);
      assert forall q :: q in parts <==> q in init || q == p;
      var values, column := AboveValues(p.launch), AboveColumn(pack, p);
      if n in column {
        var j :| 0 <= j < |column| && column[j] == n;
        assert values[j] in values && n == pack(p.component, values[j]);
      }
      if v: byte :| p.launch < v <= p.launch + 3 && n == pack(p.component, v) {
        assert v in values;
        var j :| 0 <= j < |values| && values[j] == v;
        assert column[j] == n;
      }
    }
  }

  lemma {:induction false} SweepHolds(pack: Packing, parts: seq<Part>, n: nat)
    ensures n in SweepOf(pack, parts)
            <==> n == 0 || exists p, v: byte ::
                             p in parts && v != 0 && Sampled(v, p.launch) && n == pack(p.component, v)
  {
    if parts != [] {
      var init, p := parts[..|parts| - 1], parts[|parts| - 1];
      SweepHolds(pack, init, n);
      assert forall q :: q in parts <==> q in init || q == p;
      var values, column := SweepValues(p.launch), SweepColumn(pack, p);
      if n in column {
        var j :| 0 <= j < |column| && column[j] == n;
        var v := values[j + 1];
        SweepValuesAre(p.launch, v);
        assert v in values && v > values[0];
      }
      if v: byte :| v != 0 && Sampled(v, p.launch) && n == pack(p.component, v) {
        SweepValuesAre(p.launch, v);
        var j :| 0 <= j < |values| && values[j] == v;
        assert column[j - 1] == n;
      }
    }
  }

  function ComponentAt(k: nat): Component
    requires k < 5
  {
    [BootLoader, Tee, Snp, Microcode, Component.Fmc][k]
  }

  /** The parts of the launch TCB are its components; the FMC is one only on Turin. */
  lemma LaunchParts(launch: TcbVersion, layout: Layout)
    requires Fits(launch, layout) && ByteSized(launch)
    ensures |PartsOf(launch)| == if layout.Turin? then 5 else 4
    ensures forall k | 0 <= k < |PartsOf(launch)| :: PartsOf(launch)[k] == Part(ComponentAt(k), Components(launch)[k])
  {
    assert Components(launch)[0] == launch.bootloader && Components(launch)[1] == launch.tee;
    assert Components(launch)[2] == launch.snp && Components(launch)[3] == launch.microcode;
  }

  lemma SetsOne(layout: Layout, k: nat, v: byte)
    requires k < 5 && (k == 4 ==> layout.Turin?)
    ensures var t := Single(layout, ComponentAt(k), v);
      Fits(t, layout) && OnlySets(t, k) && Components(t)[k] == v
  {
  }

  lemma OneIsSet(t: TcbVersion, layout: Layout, k: nat)
    requires Fits(t, layout) && OnlySets(t, k) && (k == 4 ==> layout.Turin?)
    ensures t == Single(layout, ComponentAt(k), Components(t)[k])
  {
    var c := Components(t);
    assert c[0] == t.bootloader && c[1] == t.tee && c[2] == t.snp && c[3] == t.microcode;
    assert k != 4 ==> c[4] == 0;
  }

  /** A request above the bound is the packed form of a version that is above the launch
      TCB in one component and zero in the others; and all of these are requested. */
  lemma AboveRequests(layout: Layout, launch: TcbVersion, n: nat)
    requires Fits(launch, layout) && ByteSized(launch)
    ensures n in TcbExam(layout, launch).above <==> exists t :: IsAbove(t, launch, layout) && n == ToU64(t, layout)
  {
    hide AboveOf, SweepOf, ToU64, Single, Components;
    var parts := PartsOf(launch);
    AboveHolds(Pack(layout), parts, n);
    LaunchParts(launch, layout);
    if p, v: byte :| p in parts && p.launch < v <= p.launch + 3 && n == Pack(layout)(p.component, v) {
      var k :| 0 <= k < |parts| && parts[k] == p;
      SetsOne(layout, k, v);
      assert IsAbove(Single(layout, ComponentAt(k), v), launch, layout);
    }
    if t :| IsAbove(t, launch, layout) && n == ToU64(t, layout) {
      var k :| 0 <= k < 5 && OnlySets(t, k) && Components(launch)[k] < Components(t)[k] <= Components(launch)[k] + 3;
      NoFmcOnLegacy(t, launch, layout);
      OneIsSet(t, layout, k);
      assert parts[k] in parts && n == Pack(layout)(parts[k].component, Components(t)[k]);
    }
  }

  lemma NoFmcOnLegacy(t: TcbVersion, launch: TcbVersion, layout: Layout)
    requires Fits(t, layout) && Fits(launch, layout)
    ensures layout.Legacy? ==> Components(t)[4] == Components(launch)[4] == 0
  {
  }

  lemma ZeroIsSampled(launch: TcbVersion, layout: Layout)
    requires Fits(launch, layout)
    ensures var t := Single(layout, BootLoader, 0); IsSampled(t, launch, layout) && ToU64(t, layout) == 0
  {
    var t := Single(layout, BootLoader, 0);
    SetsOne(layout, 0, 0);
    assert OnlySets(t, 0) && Sampled(Components(t)[0], Components(launch)[0]);
  }

  /** Likewise for the sweep and the sampled versions. */
  lemma SweepRequests(layout: Layout, launch: TcbVersion, n: nat)
    requires Fits(launch, layout) && ByteSized(launch)
    ensures n in TcbExam(layout, launch).sweep <==> exists t :: IsSampled(t, launch, layout) && n == ToU64(t, layout)
  {
    hide AboveOf, SweepOf, ToU64, Single, Components, Sampled;
    var parts := PartsOf(launch);
    SweepHolds(Pack(layout), parts, n);
    LaunchParts(launch, layout);
    ZeroIsSampled(launch, layout);
    if p, v: byte :| p in parts && v != 0 && Sampled(v, p.launch) && n == Pack(layout)(p.component, v) {
      var k :| 0 <= k < |parts| && parts[k] == p;
      SetsOne(layout, k, v);
      assert IsSampled(Single(layout, ComponentAt(k), v), launch, layout);
    }
    if t :| IsSampled(t, launch, layout) && n == ToU64(t, layout) {
      var k :| 0 <= k < 5 && OnlySets(t, k) && Sampled(Components(t)[k], Components(launch)[k]);
      if Components(t)[k] == 0 {
        ZeroIsPackedZero(t, layout, k);
      } else {
        NoFmcOnLegacy(t, launch, layout);
        OneIsSet(t, layout, k);
        assert parts[k] in parts && n == Pack(layout)(parts[k].component, Components(t)[k]);
      }
    }
  }

  lemma ZeroIsPackedZero(t: TcbVersion, layout: Layout, k: nat)
    requires Fits(t, layout) && OnlySets(t, k) && Components(t)[k] == 0
    ensures ToU64(t, layout) == 0
  {
    var c := Components(t);
    assert c[0] == t.bootloader && c[1] == t.tee && c[2] == t.snp && c[3] == t.microcode;
    assert forall j | 0 <= j < 5 :: c[j] == 0;
    assert c[4] == Or0(t.fmc);
  }

  // ── What a pass shows, for any firmware ─────────────────────────

  lemma HeldFits(t: TcbVersion, layout: Layout)
    ensures Fits(t, layout) <==> ByteSized(t) && t == Held(t, layout)
  {
    var c := Components(t);
    assert c[0] == t.bootloader && c[1] == t.tee && c[2] == t.snp && c[3] == t.microcode && c[4] == Or0(t.fmc);
  }

  /** Somewhere after the first, this was requested, and refused if it should be. */
  predicate AskedLater(f: Firmware, asked: seq<nat>, n: nat, refused: bool) {
    exists i | 0 < i < |asked| ::
      asked[i] == n && if refused then f(i, asked[i]).Refused? else !f(i, asked[i]).Breakdown?
  }

  lemma PassAsks(f: Firmware, e: Exam, asked: seq<nat>, n: nat)
    requires Judged(f, e, Verdict.Passed, asked)
    ensures asked == [e.control] + e.above + e.sweep && f(0, e.control).Key?
    ensures n in e.above ==> AskedLater(f, asked, n, true)
    ensures n in e.sweep ==> AskedLater(f, asked, n, false)
  {
    if n in e.above {
      var i :| 0 <= i < |e.above| && e.above[i] == n;
      assert AboveAnswer(f, e, i).Refused? && asked[1 + i] == n;
    }
    if n in e.sweep {
      var i :| 0 <= i < |e.sweep| && e.sweep[i] == n;
      assert !SweepAnswer(f, e, i).Breakdown? && asked[1 + |e.above| + i] == n;
    }
  }

  /** A request that the test makes after the first. */
  ghost predicate IsListed(layout: Layout, launch: TcbVersion, n: nat) {
    exists t :: (IsAbove(t, launch, layout) || IsSampled(t, launch, layout)) && n == ToU64(t, layout)
  }

  /** A pass of the TCB test, whatever the firmware: the launch TCB itself was requested
      first and accepted; every version above it in one component alone, by up to three,
      was requested and refused; every sampled one was requested; and nothing else was. */
  lemma TcbPassMeans(f: Firmware, layout: Layout, launch: TcbVersion, asked: seq<nat>)
    requires Fits(launch, layout) && ByteSized(launch)
    requires Judged(f, TcbExam(layout, launch), Verdict.Passed, asked)
    ensures asked != [] && asked[0] == ToU64(launch, layout) && f(0, ToU64(launch, layout)).Key?
    ensures forall t | IsAbove(t, launch, layout) :: AskedLater(f, asked, ToU64(t, layout), true)
    ensures forall t | IsSampled(t, launch, layout) :: AskedLater(f, asked, ToU64(t, layout), false)
    ensures forall i | 0 < i < |asked| :: IsListed(layout, launch, asked[i])
  {
    hide Judged, IsAbove, IsSampled, IsListed, AskedLater, ToU64, AboveOf, SweepOf;
    var e := TcbExam(layout, launch);
    PassAsks(f, e, asked, 0);
    forall t | IsAbove(t, launch, layout) ensures AskedLater(f, asked, ToU64(t, layout), true) {
      AboveRequests(layout, launch, ToU64(t, layout));
      PassAsks(f, e, asked, ToU64(t, layout));
    }
    forall t | IsSampled(t, launch, layout) ensures AskedLater(f, asked, ToU64(t, layout), false) {
      SweepRequests(layout, launch, ToU64(t, layout));
      PassAsks(f, e, asked, ToU64(t, layout));
    }
    forall i | 0 < i < |asked| ensures IsListed(layout, launch, asked[i]) {
      RestIsListed(e, i);
      ListedIsMeant(layout, launch, asked[i]);
    }
  }

  lemma ListedIsMeant(layout: Layout, launch: TcbVersion, n: nat)
    requires Fits(launch, layout) && ByteSized(launch)
    requires n in TcbExam(layout, launch).above || n in TcbExam(layout, launch).sweep
    ensures IsListed(layout, launch, n)
  {
    hide IsAbove, IsSampled, ToU64, TcbExam;
    AboveRequests(layout, launch, n);
    SweepRequests(layout, launch, n);
    if n in TcbExam(layout, launch).above {
      var t :| IsAbove(t, launch, layout) && n == ToU64(t, layout);
    } else {
      var t :| IsSampled(t, launch, layout) && n == ToU64(t, layout);
    }
  }

  lemma RestIsListed(e: Exam, i: nat)
    requires 0 < i < |[e.control] + e.above + e.sweep|
    ensures ([e.control] + e.above + e.sweep)[i] in e.above || ([e.control] + e.above + e.sweep)[i] in e.sweep
  {
  }

  /** A pass of the SVN test likewise: the bound, the three values above it, and unless it
      is zero the sampled ones up to it. */
  lemma SvnPassMeans(f: Firmware, bound: nat, asked: seq<nat>)
    requires Judged(f, SvnExam(bound), Verdict.Passed, asked)
    ensures asked != [] && asked[0] == bound && f(0, bound).Key?
    ensures forall v | bound < v <= bound + 3 :: AskedLater(f, asked, v, true)
    ensures bound > 0 ==> forall v: nat | Sampled(v, bound) :: AskedLater(f, asked, v, false)
    ensures forall i | 0 < i < |asked| :: bound < asked[i] <= bound + 3 || (bound > 0 && Sampled(asked[i], bound))
  {
    hide Judged, Sampled, AskedLater, SweepValues;
    var e := SvnExam(bound);
    PassAsks(f, e, asked, bound + 1);
    PassAsks(f, e, asked, bound + 2);
    PassAsks(f, e, asked, bound + 3);
    forall v: nat | bound > 0 && Sampled(v, bound) ensures AskedLater(f, asked, v, false) {
      SweepValuesAre(bound, v);
      PassAsks(f, e, asked, v);
    }
    forall i | 0 < i < |asked| ensures bound < asked[i] <= bound + 3 || (bound > 0 && Sampled(asked[i], bound)) {
      RestIsListed(e, i);
      SweepValuesAre(bound, asked[i]);
    }
  }

  // ── Who passes, among firmware that answers consistently ────────

  /** The same answer to the same request, whenever it is made. */
  function Steadily(g: nat -> Answer): Firmware {
    (n: nat, t: nat) => g(t)
  }

  predicate BothGive(g: nat -> Answer, n: nat, m: nat) {
    n != m && g(n).Key? && g(n).bytes != [] && g(m).Key? && g(m).bytes != []
  }

  /** Two of these values give keys, and no two give the same. */
  predicate GiveApart(g: nat -> Answer, values: set<nat>) {
    && (exists n, m | n in values && m in values :: BothGive(g, n, m))
    && (forall n, m | n in values && m in values && BothGive(g, n, m) :: g(n).bytes != g(m).bytes)
  }

  function ValuesOf(s: seq<nat>): set<nat> {
    set n | n in s
  }

  lemma SteadySatisfies(g: nat -> Answer, e: Exam)
    requires Distinct(e.sweep)
    ensures Satisfies(Steadily(g), e)
            <==> && g(e.control).Key? && (forall n | n in e.above :: g(n).Refused?)
                 && (forall n | n in e.sweep :: !g(n).Breakdown?)
                 && (|e.sweep| < 2 || GiveApart(g, ValuesOf(e.sweep)))
  {
    var f, values := Steadily(g), ValuesOf(e.sweep);
    assert Bounded(f, e) <==> g(e.control).Key? && forall n | n in e.above :: g(n).Refused? by {
      assert forall i | 0 <= i < |e.above| :: AboveAnswer(f, e, i) == g(e.above[i]);
    }
    assert forall i | 0 <= i < |e.sweep| :: SweepAnswer(f, e, i) == g(e.sweep[i]);
    SteadyKeys(g, e);
  }

  lemma SteadyKeys(g: nat -> Answer, e: Exam)
    requires Distinct(e.sweep)
    ensures TwoGiven(Steadily(g), e) && KeysDiffer(Steadily(g), e) <==> GiveApart(g, ValuesOf(e.sweep))
  {
    hide TwoGiven, KeysDiffer, GiveApart;
    if GiveApart(g, ValuesOf(e.sweep)) {
      ApartGivesKeys(g, e);
    }
    if TwoGiven(Steadily(g), e) && KeysDiffer(Steadily(g), e) {
      KeysGiveApart(g, e);
    }
  }

  lemma ApartGivesKeys(g: nat -> Answer, e: Exam)
    requires Distinct(e.sweep) && GiveApart(g, ValuesOf(e.sweep))
    ensures TwoGiven(Steadily(g), e) && KeysDiffer(Steadily(g), e)
  {
    var f, values := Steadily(g), ValuesOf(e.sweep);
    var n, m :| n in values && m in values && BothGive(g, n, m);
    var i :| 0 <= i < |e.sweep| && e.sweep[i] == n;
    var j :| 0 <= j < |e.sweep| && e.sweep[j] == m;
    assert Gives(SweepAnswer(f, e, i)) && Gives(SweepAnswer(f, e, j));
    forall i, j | 0 <= i < j < |e.sweep| && Gives(SweepAnswer(f, e, i)) && Gives(SweepAnswer(f, e, j))
      ensures SweepAnswer(f, e, i).bytes != SweepAnswer(f, e, j).bytes
    {
      assert e.sweep[i] in values && e.sweep[j] in values && BothGive(g, e.sweep[i], e.sweep[j]);
    }
  }

  lemma KeysGiveApart(g: nat -> Answer, e: Exam)
    requires Distinct(e.sweep) && TwoGiven(Steadily(g), e) && KeysDiffer(Steadily(g), e)
    ensures GiveApart(g, ValuesOf(e.sweep))
  {
    var f, values := Steadily(g), ValuesOf(e.sweep);
    var i, j :| 0 <= i < j < |e.sweep| && Gives(SweepAnswer(f, e, i)) && Gives(SweepAnswer(f, e, j));
    assert e.sweep[i] in values && e.sweep[j] in values && BothGive(g, e.sweep[i], e.sweep[j]);
    forall n, m | n in values && m in values && BothGive(g, n, m) ensures g(n).bytes != g(m).bytes {
      var i :| 0 <= i < |e.sweep| && e.sweep[i] == n;
      var j :| 0 <= j < |e.sweep| && e.sweep[j] == m;
      assert Gives(SweepAnswer(f, e, i)) && Gives(SweepAnswer(f, e, j));
    }
  }

  /** Different versions that both give a key, and not an empty one. */
  predicate BothVersionsGive(g: nat -> Answer, layout: Layout, t: TcbVersion, u: TcbVersion) {
    && t != u && g(ToU64(t, layout)).Key? && g(ToU64(t, layout)).bytes != []
    && g(ToU64(u, layout)).Key? && g(ToU64(u, layout)).bytes != []
  }

  /** Two sampled versions give keys, and no two give the same. */
  ghost predicate VersionsApart(g: nat -> Answer, layout: Layout, launch: TcbVersion) {
    && (exists t, u | IsSampled(t, launch, layout) && IsSampled(u, launch, layout) ::
          BothVersionsGive(g, layout, t, u))
    && (forall t, u | IsSampled(t, launch, layout) && IsSampled(u, launch, layout)
                      && BothVersionsGive(g, layout, t, u) ::
          g(ToU64(t, layout)).bytes != g(ToU64(u, layout)).bytes)
  }

  lemma SampledApart(layout: Layout, launch: TcbVersion, t: TcbVersion, u: TcbVersion)
    requires IsSampled(t, launch, layout) && IsSampled(u, launch, layout) && t != u
    ensures ToU64(t, layout) != ToU64(u, layout)
  {
    hide ToU64;
    HeldFits(t, layout);
    HeldFits(u, layout);
    EncodingIsInjective(t, u, layout);
  }

  lemma ApartIsVersionsApart(g: nat -> Answer, layout: Layout, launch: TcbVersion, values: set<nat>)
    requires forall n :: n in values <==> exists t :: IsSampled(t, launch, layout) && n == ToU64(t, layout)
    ensures GiveApart(g, values) <==> VersionsApart(g, layout, launch)
  {
    hide IsSampled, ToU64;
    if GiveApart(g, values) {
      var n, m :| n in values && m in values && BothGive(g, n, m);
      var t :| IsSampled(t, launch, layout) && n == ToU64(t, layout);
      var u :| IsSampled(u, launch, layout) && m == ToU64(u, layout);
      assert BothVersionsGive(g, layout, t, u);
      forall t, u | IsSampled(t, launch, layout) && IsSampled(u, launch, layout) && BothVersionsGive(g, layout, t, u)
        ensures g(ToU64(t, layout)).bytes != g(ToU64(u, layout)).bytes
      {
        SampledApart(layout, launch, t, u);
        assert BothGive(g, ToU64(t, layout), ToU64(u, layout));
      }
    }
    if VersionsApart(g, layout, launch) {
      var t, u :| IsSampled(t, launch, layout) && IsSampled(u, launch, layout) && BothVersionsGive(g, layout, t, u);
      SampledApart(layout, launch, t, u);
      assert ToU64(t, layout) in values && ToU64(u, layout) in values;
      assert BothGive(g, ToU64(t, layout), ToU64(u, layout));
      forall n, m | n in values && m in values && BothGive(g, n, m) ensures g(n).bytes != g(m).bytes {
        var t :| IsSampled(t, launch, layout) && n == ToU64(t, layout);
        var u :| IsSampled(u, launch, layout) && m == ToU64(u, layout);
        assert BothVersionsGive(g, layout, t, u);
      }
    }
  }

  lemma OneSweptIffZero(layout: Layout, launch: TcbVersion)
    requires Fits(launch, layout) && ByteSized(launch)
    ensures |TcbExam(layout, launch).sweep| < 2 <==> forall k | 0 <= k < 5 :: Components(launch)[k] == 0
  {
    hide ToU64, AboveOf, SweepOf;
    HeldFits(launch, layout);
    TcbSweepIsSmall(layout, launch);
    SmallTotals(PartsOf(launch));
    SumOfParts(launch);
    var c := Components(launch);
    assert c[0] == launch.bootloader && c[1] == launch.tee && c[2] == launch.snp && c[3] == launch.microcode;
    assert c[4] == Or0(launch.fmc);
  }

  /** Over all firmware that answers consistently, on the versions themselves: the TCB test
      passes exactly if the launch TCB is accepted, all that is above it refused, no sampled
      request breaks down, and, unless the launch TCB is zero, at least two sampled versions
      give a key and no two of them the same. */
  lemma TcbPassIff(g: nat -> Answer, layout: Layout, launch: TcbVersion)
    requires Fits(launch, layout) && ByteSized(launch)
    ensures Satisfies(Steadily(g), TcbExam(layout, launch))
            <==> && g(ToU64(launch, layout)).Key?
                 && (forall t | IsAbove(t, launch, layout) :: g(ToU64(t, layout)).Refused?)
                 && (forall t | IsSampled(t, launch, layout) :: !g(ToU64(t, layout)).Breakdown?)
                 && ((forall k | 0 <= k < 5 :: Components(launch)[k] == 0) || VersionsApart(g, layout, launch))
  {
    hide Satisfies, IsAbove, IsSampled, ToU64, AboveOf, SweepOf, Components, Distinct, GiveApart, VersionsApart,
         Steadily;
    var e := TcbExam(layout, launch);
    HeldFits(launch, layout);
    TcbSweepIsSmall(layout, launch);
    SteadySatisfies(g, e);
    OneSweptIffZero(layout, launch);
    forall n: nat
      ensures n in e.above <==> exists t :: IsAbove(t, launch, layout) && n == ToU64(t, layout)
      ensures n in e.sweep <==> exists t :: IsSampled(t, launch, layout) && n == ToU64(t, layout)
    {
      AboveRequests(layout, launch, n);
      SweepRequests(layout, launch, n);
    }
    ApartIsVersionsApart(g, layout, launch, ValuesOf(e.sweep));
  }

  function SampledValues(max: nat): set<nat> {
    set v: nat | v <= max && Sampled(v, max)
  }

  /** Likewise the SVN test. */
  lemma SvnPassIff(g: nat -> Answer, bound: nat)
    ensures Satisfies(Steadily(g), SvnExam(bound))
            <==> && g(bound).Key? && g(bound + 1).Refused? && g(bound + 2).Refused? && g(bound + 3).Refused?
                 && (bound == 0 || ((forall v: nat | Sampled(v, bound) :: !g(v).Breakdown?)
                                    && GiveApart(g, SampledValues(bound))))
  {
    hide Satisfies, Sampled, GiveApart, SweepValues, Steadily;
    var e := SvnExam(bound);
    SteadySatisfies(g, e);
    assert e.above == [bound + 1, bound + 2, bound + 3];
    assert forall n :: n in e.above <==> n == bound + 1 || n == bound + 2 || n == bound + 3;
    assert (forall n | n in e.above :: g(n).Refused?)
      <==> g(bound + 1).Refused? && g(bound + 2).Refused? && g(bound + 3).Refused?;
    if bound == 0 {
      assert e.sweep == [];
    } else {
      assert |e.sweep| >= 2;
      forall v: nat ensures v in e.sweep <==> v <= bound && Sampled(v, bound) {
        SweepValuesAre(bound, v);
        SampledIsWithin(v, bound);
      }
      assert ValuesOf(e.sweep) == SampledValues(bound);
      assert (forall n | n in e.sweep :: !g(n).Breakdown?)
        <==> forall v: nat | Sampled(v, bound) :: !g(v).Breakdown? by {
        forall v: nat | Sampled(v, bound) ensures v in e.sweep {
          SampledIsWithin(v, bound);
        }
      }
    }
  }

  lemma SampledIsWithin(v: nat, bound: nat)
    ensures Sampled(v, bound) ==> v <= bound
  {
  }
}
