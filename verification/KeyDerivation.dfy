/** The bound and sensitivity tests of derived keys
    (sev_verify/cert_tests/c3_0/c3_0_0_1/key_derivation_test.py) against an arbitrary
    firmware.  Derived keys and their TCB bound are described in section 7.2 of the AMD
    SEV-SNP Firmware ABI Specification, publication 56860. */
module KeyDerivation {
  import opened Models
  import opened TcbVersions

  /** The firmware refuses the request or derives a key; or the request or the fetch of
      its key breaks down, and the handler raises. */
  datatype Answer = Refused | Key(bytes: seq<byte>) | Breakdown

  /** The answer to the n-th request of a test, which asks for this TCB or SVN; it may
      depend on n, so the firmware need not be consistent. */
  type Firmware = (nat, nat) -> Answer

  datatype Verdict = Passed | Failed | Raised

  // ── What is asked ───────────────────────────────────────────────

  /** `_sweep_values`; the nine values are already in order and distinct. */
  function SweepValues(max: nat): (s: seq<nat>)
    ensures |s| == if max < 16 then max + 1 else 9
    ensures s[0] == 0 && s[|s| - 1] == max
    ensures forall i, j | 0 <= i < j < |s| :: s[i] < s[j]
  {
    if max < 16 then seq(max + 1, i => i)
    else [0, 1, 2, max / 2 - 1, max / 2, max / 2 + 1, max - 2, max - 1, max]
  }

  datatype Component = BootLoader | Tee | Snp | Microcode | Fmc

  /** A component and its value in the launch TCB. */
  datatype Part = Part(component: Component, launch: byte)

  function PartsOf(t: TcbVersion): seq<Part>
    requires ByteSized(t)
  {
    [Part(BootLoader, t.bootloader), Part(Tee, t.tee), Part(Snp, t.snp), Part(Microcode, t.microcode)]
    + if t.fmc.Some? then [Part(Fmc, t.fmc.value)] else []
  }

  /** `_make_tcb` with one component set. */
  function Single(layout: Layout, component: Component, value: nat): TcbVersion {
    var zero := TcbVersion(0, 0, 0, 0, if layout.Turin? then Some(0) else None);
    match component
    case BootLoader => zero.(bootloader := value)
    case Tee => zero.(tee := value)
    case Snp => zero.(snp := value)
    case Microcode => zero.(microcode := value)
    case Fmc => zero.(fmc := Some(value))
  }

  /** How a component and its value become the integer of a request. */
  type Packing = (Component, nat) -> nat

  function Pack(layout: Layout): Packing {
    (component, value) => ToU64(Single(layout, component, value), layout)
  }

  /** A control at the bound, requests above it, and a sweep below it. */
  datatype Exam = Exam(control: nat, above: seq<nat>, sweep: seq<nat>)

  function Requests(e: Exam): seq<nat> {
    [e.control] + e.above + e.sweep
  }

  /** The three values above a launch value, as far as a byte goes. */
  function AboveValues(launch: byte): (s: seq<nat>)
    ensures forall v: nat :: v in s <==> launch < v <= launch + 3 && v <= 0xFF
  {
    (if launch + 1 <= 0xFF then [launch + 1] else [])
    + (if launch + 2 <= 0xFF then [launch + 2] else [])
    + (if launch + 3 <= 0xFF then [launch + 3] else [])
  }

  function AboveColumn(pack: Packing, p: Part): seq<nat> {
    var values := AboveValues(p.launch);
    seq(|values|, i requires 0 <= i < |values| => pack(p.component, values[i]))
  }

  function AboveOf(pack: Packing, parts: seq<Part>): seq<nat> {
    if parts == [] then [] else AboveOf(pack, parts[..|parts| - 1]) + AboveColumn(pack, parts[|parts| - 1])
  }

  /** The sweep of one component but for zero, which all components share. */
  function SweepColumn(pack: Packing, p: Part): seq<nat> {
    var values := SweepValues(p.launch);
    seq(|values| - 1, i requires 0 <= i < |values| - 1 => pack(p.component, values[i + 1]))
  }

  function SweepOf(pack: Packing, parts: seq<Part>): seq<nat> {
    if parts == [] then [0] else SweepOf(pack, parts[..|parts| - 1]) + SweepColumn(pack, parts[|parts| - 1])
  }

  function TcbExam(layout: Layout, launch: TcbVersion): Exam
    requires ByteSized(launch)
  {
    Exam(ToU64(launch, layout), AboveOf(Pack(layout), PartsOf(launch)),
         SweepOf(Pack(layout), PartsOf(launch)))
  }

  function SvnExam(bound: nat): Exam {
    Exam(bound, [bound + 1, bound + 2, bound + 3], if bound == 0 then [] else SweepValues(bound))
  }

  // ── What a pass means ───────────────────────────────────────────

  function AboveAnswer(f: Firmware, e: Exam, i: nat): Answer
    requires i < |e.above|
  {
    f(1 + i, e.above[i])
  }

  function SweepAnswer(f: Firmware, e: Exam, i: nat): Answer
    requires i < |e.sweep|
  {
    f(1 + |e.above| + i, e.sweep[i])
  }

  /** The bound itself is accepted, everything above it refused. */
  predicate Bounded(f: Firmware, e: Exam) {
    f(0, e.control).Key? && forall i | 0 <= i < |e.above| :: AboveAnswer(f, e, i).Refused?
  }

  predicate Gives(a: Answer) {
    a.Key? && a.bytes != []
  }

  /** Nothing to compare, or at least two keys, all different; refused requests and
      empty keys are passed over. */
  predicate Sensitive(f: Firmware, e: Exam) {
    |e.sweep| < 2
    || (TwoGiven(f, e) && KeysDiffer(f, e))
  }

  predicate TwoGiven(f: Firmware, e: Exam) {
    exists i, j | 0 <= i < j < |e.sweep| :: Gives(SweepAnswer(f, e, i)) && Gives(SweepAnswer(f, e, j))
  }

  predicate KeysDiffer(f: Firmware, e: Exam) {
    forall i, j | 0 <= i < j < |e.sweep| && Gives(SweepAnswer(f, e, i)) && Gives(SweepAnswer(f, e, j)) ::
      SweepAnswer(f, e, i).bytes != SweepAnswer(f, e, j).bytes
  }

  /** A request that is made breaks down: all those above the bound are made if the
      control is accepted, and the sweep only if the bound holds. */
  predicate BreaksDown(f: Firmware, e: Exam) {
    || f(0, e.control).Breakdown?
    || (f(0, e.control).Key? && exists i | 0 <= i < |e.above| :: AboveAnswer(f, e, i).Breakdown?)
    || (Bounded(f, e) && exists i | 0 <= i < |e.sweep| :: SweepAnswer(f, e, i).Breakdown?)
  }

  predicate Satisfies(f: Firmware, e: Exam) {
    !BreaksDown(f, e) && Bounded(f, e) && Sensitive(f, e)
  }

  /** The exam is judged rightly, and asked in its order. */
  predicate Judged(f: Firmware, e: Exam, verdict: Verdict, asked: seq<nat>) {
    && (verdict == Raised <==> BreaksDown(f, e))
    && (verdict == Passed <==> Satisfies(f, e))
    && asked <= Requests(e)
    && (verdict == Passed ==> asked == Requests(e))
  }

  // ── The sweep asks for nothing twice ────────────────────────────

  /** Equal packed values are equal components at equal values, but for zero, which is
      the same for all. */
  predicate SamePacked(pack: Packing, c: Component, v: nat, d: Component, w: nat) {
    pack(c, v) == pack(d, w) <==> v == w && (c == d || v == 0)
  }

  lemma PackingIsInjective(layout: Layout, c: Component, v: nat, d: Component, w: nat)
    requires v < 256 && w < 256 && (c.Fmc? || d.Fmc? ==> layout.Turin?)
    ensures SamePacked(Pack(layout), c, v, d, w)
    ensures Pack(layout)(c, 0) == 0
  {
    hide ToU64, Single;
    ZeroPacks(layout, c);
    SinglesDiffer(layout, c, v, d, w);
  }

  lemma ZeroPacks(layout: Layout, c: Component)
    ensures ToU64(Single(layout, c, 0), layout) == 0
  {
  }

  lemma SinglesDiffer(layout: Layout, c: Component, v: nat, d: Component, w: nat)
    requires v < 256 && w < 256 && (c.Fmc? || d.Fmc? ==> layout.Turin?)
    ensures ToU64(Single(layout, c, v), layout) == ToU64(Single(layout, d, w), layout)
            <==> v == w && (c == d || v == 0)
  {
    hide ToU64;
    EncodingIsInjective(Single(layout, c, v), Single(layout, d, w), layout);
  }

  /** The parts are different components, which the packing tells apart. */
  ghost predicate PartsFit(pack: Packing, parts: seq<Part>) {
    && (forall i, j | 0 <= i < j < |parts| :: parts[i].component != parts[j].component)
    && (forall p | p in parts :: pack(p.component, 0) == 0)
    && (forall p, q, v: byte, w: byte | p in parts && q in parts :: SamePacked(pack, p.component, v, q.component, w))
  }

  predicate Distinct(s: seq<nat>) {
    forall i, j | 0 <= i < j < |s| :: s[i] != s[j]
  }

  /** A swept TCB has at most one component set, to at most its launch value. */
  predicate Swept(pack: Packing, parts: seq<Part>, t: nat) {
    t == 0 || exists p, v | p in parts && 1 <= v <= p.launch :: t == pack(p.component, v)
  }

  lemma ColumnIsNew(pack: Packing, parts: seq<Part>, k: nat, t: nat, j: nat)
    requires PartsFit(pack, parts) && k < |parts| && Swept(pack, parts[..k], t)
    requires j < |SweepColumn(pack, parts[k])|
    ensures SweepColumn(pack, parts[k])[j] != t
  {
    var p, u := parts[k], SweepValues(parts[k].launch)[j + 1];
    assert 1 <= u <= p.launch;
    assert SamePacked(pack, p.component, u, p.component, 0);
    if t != 0 {
      var q, v :| q in parts[..k] && 1 <= v <= q.launch && t == pack(q.component, v);
      assert SamePacked(pack, p.component, u, q.component, v);
    }
  }

  lemma ColumnIsDistinct(pack: Packing, parts: seq<Part>, p: Part, i: nat, j: nat)
    requires PartsFit(pack, parts) && p in parts
    requires i < j < |SweepColumn(pack, p)|
    ensures SweepColumn(pack, p)[i] != SweepColumn(pack, p)[j]
  {
    var values := SweepValues(p.launch);
    assert values[i + 1] < values[j + 1] <= p.launch;
    assert SamePacked(pack, p.component, values[i + 1], p.component, values[j + 1]);
  }

  function Total(parts: seq<Part>): nat {
    if parts == [] then 0 else Total(parts[..|parts| - 1]) + |SweepValues(parts[|parts| - 1].launch)| - 1
  }

  lemma AppendedIsDistinct(pack: Packing, parts: seq<Part>, k: nat, s: seq<nat>)
    requires PartsFit(pack, parts) && k < |parts| && Distinct(s)
    requires forall t | t in s :: Swept(pack, parts[..k], t)
    ensures Distinct(s + SweepColumn(pack, parts[k]))
  {
    var column := SweepColumn(pack, parts[k]);
    forall i, j | 0 <= i < j < |s + column| ensures (s + column)[i] != (s + column)[j] {
      if i >= |s| {
        ColumnIsDistinct(pack, parts, parts[k], i - |s|, j - |s|);
      } else if j >= |s| {
        assert s[i] in s;
        ColumnIsNew(pack, parts, k, s[i], j - |s|);
      }
    }
  }

  lemma {:induction false} SweepIsSwept(pack: Packing, parts: seq<Part>, t: nat)
    requires t in SweepOf(pack, parts)
    ensures Swept(pack, parts, t)
  {
    if parts != [] {
      var init, p := parts[..|parts| - 1], parts[|parts| - 1];
      if t in SweepOf(pack, init) {
        SweepIsSwept(pack, init, t);
      } else {
        var j :| 0 <= j < |SweepColumn(pack, p)| && SweepColumn(pack, p)[j] == t;
        assert p in parts && 1 <= SweepValues(p.launch)[j + 1] <= p.launch;
      }
    }
  }

  /** No TCB is asked for twice, and their number is one more than the sum of the
      components' own numbers without zero. */
  lemma {:induction false} SweepIsEconomical(pack: Packing, parts: seq<Part>)
    requires PartsFit(pack, parts)
    ensures Distinct(SweepOf(pack, parts))
    ensures |SweepOf(pack, parts)| == 1 + Total(parts) <= 1 + 15 * |parts|
  {
    if parts != [] {
      var k := |parts| - 1;
      SweepIsEconomical(pack, parts[..k]);
      forall t | t in SweepOf(pack, parts[..k]) ensures Swept(pack, parts[..k], t) {
        SweepIsSwept(pack, parts[..k], t);
      }
      AppendedIsDistinct(pack, parts, k, SweepOf(pack, parts[..k]));
    }
  }

  lemma PackFits(layout: Layout, parts: seq<Part>)
    requires forall i, j | 0 <= i < j < |parts| :: parts[i].component != parts[j].component
    requires forall p | p in parts :: p.component.Fmc? ==> layout.Turin?
    ensures PartsFit(Pack(layout), parts)
  {
    hide Pack, ToU64, Single, SamePacked;
    forall p | p in parts ensures Pack(layout)(p.component, 0) == 0 {
      PackingIsInjective(layout, p.component, 0, p.component, 0);
    }
    forall p, q, v: byte, w: byte | p in parts && q in parts
      ensures SamePacked(Pack(layout), p.component, v, q.component, w)
    {
      PackingIsInjective(layout, p.component, v, q.component, w);
    }
  }

  lemma PartsOfFit(layout: Layout, launch: TcbVersion)
    requires ByteSized(launch) && launch == Held(launch, layout)
    ensures PartsFit(Pack(layout), PartsOf(launch)) && 4 <= |PartsOf(launch)| <= 5
  {
    hide Pack, ToU64, PartsFit;
    PackFits(layout, PartsOf(launch));
  }

  /** At most 76 TCBs are tried, each once. */
  lemma TcbSweepIsSmall(layout: Layout, launch: TcbVersion)
    requires ByteSized(launch) && launch == Held(launch, layout)
    ensures Distinct(TcbExam(layout, launch).sweep)
    ensures 1 <= |TcbExam(layout, launch).sweep| == 1 + Total(PartsOf(launch)) <= 76
  {
    PartsOfFit(layout, launch);
    SweepIsEconomical(Pack(layout), PartsOf(launch));
  }

  // ── The keys ────────────────────────────────────────────────────

  /** The keys that the requests `asked` gave, from request number `first` on. */
  function Collected(f: Firmware, first: nat, asked: seq<nat>): map<nat, seq<byte>> {
    if asked == [] then map[]
    else
      var n := |asked| - 1;
      var rest, a := Collected(f, first, asked[..n]), f(first + n, asked[n]);
      if Gives(a) then rest[asked[n] := a.bytes] else rest
  }

  lemma {:induction false} CollectedMeans(f: Firmware, first: nat, asked: seq<nat>)
    requires Distinct(asked)
    ensures var m := Collected(f, first, asked);
      && (forall t | t in m :: t in asked)
      && (forall i | 0 <= i < |asked| ::
            (asked[i] in m <==> Gives(f(first + i, asked[i])))
            && (asked[i] in m ==> m[asked[i]] == f(first + i, asked[i]).bytes))
  {
    if asked != [] {
      var init := asked[..|asked| - 1];
      CollectedMeans(f, first, init);
      forall i | 0 <= i < |init| ensures init[i] == asked[i] != asked[|asked| - 1] {
      }
    }
  }

  predicate Injective(m: map<nat, seq<byte>>) {
    forall a, b | a in m && b in m && a != b :: m[a] != m[b]
  }

  lemma ValuesWithout(m: map<nat, seq<byte>>, k: nat)
    requires k in m
    ensures var rest := m - {k}; m.Values == rest.Values + {m[k]} && |m| == |rest| + 1
  {
    var rest := m - {k};
    assert m.Keys == rest.Keys + {k};
    forall v | v in m.Values ensures v in rest.Values + {m[k]} {
      var a :| a in m && m[a] == v;
      assert a != k ==> a in rest && rest[a] == v;
    }
  }

  lemma InjectiveWithout(m: map<nat, seq<byte>>, k: nat)
    requires k in m
    ensures var rest := m - {k}; Injective(m) <==> Injective(rest) && m[k] !in rest.Values
  {
    var rest := m - {k};
    if Injective(rest) && m[k] !in rest.Values {
      forall a, b | a in m && b in m && a != b ensures m[a] != m[b] {
        assert a != k ==> a in rest && rest[a] == m[a] && m[a] in rest.Values;
        assert b != k ==> b in rest && rest[b] == m[b] && m[b] in rest.Values;
      }
    }
  }

  /** As many values as keys exactly when no two keys share a value. */
  lemma {:induction false} ValuesCount(m: map<nat, seq<byte>>)
    ensures |m.Values| <= |m|
    ensures |m.Values| == |m| <==> Injective(m)
  {
    if m != map[] {
      var k :| k in m;
      ValuesCount(m - {k});
      ValuesWithout(m, k);
      InjectiveWithout(m, k);
    }
  }

  lemma TwoKeys(m: map<nat, seq<byte>>)
    ensures |m| >= 2 <==> exists a, b :: a in m && b in m && a != b
  {
    if |m| >= 1 {
      var k :| k in m;
      var rest := m.Keys - {k};
      assert |rest| == |m.Keys| - 1 == |m| - 1;
      if |m| >= 2 {
        assert rest != {};
        var a :| a in rest;
        assert a in m && a != k;
      } else {
        assert rest == {};
        assert forall a | a in m :: a == k || a in rest;
      }
    }
  }

  /** The map holds the keys of the sweep. */
  predicate HoldsKeys(f: Firmware, e: Exam, m: map<nat, seq<byte>>) {
    && (forall t | t in m :: t in e.sweep)
    && (forall i | 0 <= i < |e.sweep| ::
          && (e.sweep[i] in m <==> Gives(SweepAnswer(f, e, i)))
          && (e.sweep[i] in m ==> m[e.sweep[i]] == SweepAnswer(f, e, i).bytes))
  }

  lemma TwoKeysGiven(f: Firmware, e: Exam, m: map<nat, seq<byte>>)
    requires Distinct(e.sweep) && HoldsKeys(f, e, m)
    ensures |m| >= 2 <==> TwoGiven(f, e)
  {
    TwoKeys(m);
    if a, b :| a in m && b in m && a != b {
      var i :| 0 <= i < |e.sweep| && e.sweep[i] == a;
      var j :| 0 <= j < |e.sweep| && e.sweep[j] == b;
      assert i < j || j < i;
    }
    if i, j :| 0 <= i < j < |e.sweep| && Gives(SweepAnswer(f, e, i)) && Gives(SweepAnswer(f, e, j)) {
      assert e.sweep[i] in m && e.sweep[j] in m && e.sweep[i] != e.sweep[j];
    }
  }

  lemma KeysAreApart(f: Firmware, e: Exam, m: map<nat, seq<byte>>)
    requires Distinct(e.sweep) && HoldsKeys(f, e, m)
    ensures Injective(m) <==> KeysDiffer(f, e)
  {
    if Injective(m) {
      forall i, j | 0 <= i < j < |e.sweep| && Gives(SweepAnswer(f, e, i)) && Gives(SweepAnswer(f, e, j))
        ensures SweepAnswer(f, e, i).bytes != SweepAnswer(f, e, j).bytes
      {
        assert m[e.sweep[i]] != m[e.sweep[j]];
      }
    }
    if KeysDiffer(f, e) {
      forall a, b | a in m && b in m && a != b ensures m[a] != m[b] {
        var i :| 0 <= i < |e.sweep| && e.sweep[i] == a;
        var j :| 0 <= j < |e.sweep| && e.sweep[j] == b;
        assert i < j || j < i;
      }
    }
  }

  lemma CollectedHolds(f: Firmware, e: Exam)
    requires Distinct(e.sweep)
    ensures HoldsKeys(f, e, Collected(f, 1 + |e.above|, e.sweep))
  {
    hide Collected;
    CollectedMeans(f, 1 + |e.above|, e.sweep);
  }

  /** Counting the keys, and their different values, decides sensitivity. */
  lemma KeysDecide(f: Firmware, e: Exam)
    requires Distinct(e.sweep)
    ensures var m := Collected(f, 1 + |e.above|, e.sweep);
      && (|m| >= 2 <==> TwoGiven(f, e))
      && (|m.Values| == |m| <==> KeysDiffer(f, e))
  {
    hide Injective, KeysDiffer, TwoGiven, HoldsKeys;
    var m := Collected(f, 1 + |e.above|, e.sweep);
    CollectedHolds(f, e);
    ValuesCount(m);
    TwoKeysGiven(f, e, m);
    KeysAreApart(f, e, m);
  }
}
