/** The report's layout, and the parser as the inverse of a writer. */
module ReportLayouts {
  import opened Models
  import opened TcbVersions
  import opened AttestationReports

  // ── Segments ────────────────────────────────────────────────────

  function Concat(segments: seq<seq<byte>>): seq<byte> {
    if segments == [] then [] else segments[0] + Concat(segments[1..])
  }

  lemma {:induction false} ConcatSplits(segments: seq<seq<byte>>, i: nat)
    requires i <= |segments|
    ensures Concat(segments) == Concat(segments[..i]) + Concat(segments[i..])
  {
    if i > 0 {
      ConcatSplits(segments[1..], i - 1);
      assert segments[..i][1..] == segments[1..][..i - 1];
      assert segments[1..][i - 1..] == segments[i..];
    }
  }

  /** Segment i lies between offsets i and i + 1, the last of which is the end. */
  predicate Fits(segments: seq<seq<byte>>, offsets: seq<nat>) {
    && |offsets| == |segments| + 1 && offsets[0] == 0
    && forall i | 0 <= i < |segments| :: offsets[i + 1] == offsets[i] + |segments[i]|
  }

  lemma {:induction false} PrefixLength(segments: seq<seq<byte>>, offsets: seq<nat>, i: nat)
    requires Fits(segments, offsets) && i <= |segments|
    ensures |Concat(segments[..i])| == offsets[i]
  {
    if i > 0 {
      PrefixLength(segments, offsets, i - 1);
      ConcatSplits(segments[..i], i - 1);
      assert segments[..i][..i - 1] == segments[..i - 1];
      assert segments[..i][i - 1..] == [segments[i - 1]];
      assert Concat([segments[i - 1]]) == segments[i - 1] + Concat([]);
    }
  }

  lemma SegmentAt(segments: seq<seq<byte>>, offsets: seq<nat>, i: nat)
    requires Fits(segments, offsets) && i < |segments|
    ensures offsets[i] <= offsets[i + 1] <= |Concat(segments)| == offsets[|segments|]
    ensures Concat(segments)[offsets[i]..offsets[i + 1]] == segments[i]
  {
    PrefixLength(segments, offsets, i);
    PrefixLength(segments, offsets, |segments|);
    assert segments[..|segments|] == segments;
    ConcatSplits(segments, i);
    assert segments[i..][1..] == segments[i + 1..];
    assert Concat(segments) == Concat(segments[..i]) + segments[i] + Concat(segments[i + 1..]);
  }

  predicate IsCut(data: seq<byte>, piece: seq<byte>, low: nat, high: nat) {
    low <= high <= |data| && piece == data[low..high]
  }

  /** Bytes are what their pieces, cut anywhere, join to. */
  lemma {:induction false} CutJoins(data: seq<byte>, segments: seq<seq<byte>>, offsets: seq<nat>, i: nat)
    requires Fits(segments, offsets) && i <= |segments|
    requires forall k | 0 <= k <= |segments| :: offsets[k] <= |data|
    requires forall k | 0 <= k < |segments| :: IsCut(data, segments[k], offsets[k], offsets[k + 1])
    ensures Concat(segments[..i]) == data[..offsets[i]]
  {
    if i > 0 {
      CutJoins(data, segments, offsets, i - 1);
      ConcatSplits(segments[..i], i - 1);
      assert segments[..i][..i - 1] == segments[..i - 1];
      assert segments[..i][i - 1..] == [segments[i - 1]];
      assert Concat([segments[i - 1]]) == segments[i - 1] + Concat([]);
    }
  }

  // ── The report's segments ───────────────────────────────────────

  /** Version, guest SVN, policy, family id, image id, VMPL, -, report data,
      measurement, host data, id key digest, author key digest, report id, -,
      reported TCB, CPUID, -, launch TCB, -. */
  const OFFSETS: seq<nat> :=
    [0x000, 0x004, 0x008, 0x010, 0x020, 0x030, 0x034, 0x050, 0x090, 0x0C0, 0x0E0, 0x110, 0x140,
     0x160, 0x180, 0x188, 0x18B, 0x1F0, 0x1F8, 1184]

  /** What the parser reads; the integers and TCBs as the bytes they are stored in. */
  datatype Content = Content(
    version: seq<byte>, guestSvn: seq<byte>, policy: seq<byte>, familyId: seq<byte>, imageId: seq<byte>,
    vmpl: seq<byte>, reportData: seq<byte>, measurement: seq<byte>, hostData: seq<byte>,
    idKeyDigest: seq<byte>, authorKeyDigest: seq<byte>, reportId: seq<byte>,
    reportedTcb: seq<byte>, cpuid: seq<byte>, launchTcb: seq<byte>)

  /** The bytes the parser does not read. */
  datatype Gaps = Gaps(afterVmpl: seq<byte>, afterReportId: seq<byte>, afterCpuid: seq<byte>, tail: seq<byte>)

  function Segments(c: Content, g: Gaps): seq<seq<byte>> {
    [ c.version, c.guestSvn, c.policy, c.familyId, c.imageId, c.vmpl, g.afterVmpl, c.reportData,
      c.measurement, c.hostData, c.idKeyDigest, c.authorKeyDigest, c.reportId, g.afterReportId,
      c.reportedTcb, c.cpuid, g.afterCpuid, c.launchTcb, g.tail ]
  }

  predicate Sized(c: Content, g: Gaps) {
    && Fits(Segments(c, g), OFFSETS)
    && |c.reportedTcb| == 8 && |c.cpuid| == 3 && |c.launchTcb| == 8
  }

  function Write(c: Content, g: Gaps): seq<byte> {
    Concat(Segments(c, g))
  }

  function ContentOf(data: seq<byte>): Content
    requires |data| == REPORT_SIZE
  {
    Content(data[0x000..0x004], data[0x004..0x008], data[0x008..0x010], data[0x010..0x020], data[0x020..0x030],
            data[0x030..0x034], data[0x050..0x090], data[0x090..0x0C0], data[0x0C0..0x0E0],
            data[0x0E0..0x110], data[0x110..0x140], data[0x140..0x160],
            data[0x180..0x188], data[0x188..0x18B], data[0x1F0..0x1F8])
  }

  function GapsOf(data: seq<byte>): Gaps
    requires |data| == REPORT_SIZE
  {
    Gaps(data[0x034..0x050], data[0x160..0x180], data[0x18B..0x1F0], data[0x1F8..])
  }

  lemma WrittenSegment(c: Content, g: Gaps, i: nat)
    requires Sized(c, g) && i < 19
    ensures |Write(c, g)| == 1184 && OFFSETS[i] <= OFFSETS[i + 1] <= 1184
    ensures Write(c, g)[OFFSETS[i]..OFFSETS[i + 1]] == Segments(c, g)[i]
  {
    SegmentAt(Segments(c, g), OFFSETS, i);
  }

  lemma ReadHead(c: Content, g: Gaps)
    requires Sized(c, g)
    ensures |Write(c, g)| == 1184
    ensures var r := ContentOf(Write(c, g));
      && r.version == c.version && r.guestSvn == c.guestSvn && r.policy == c.policy
      && r.familyId == c.familyId && r.imageId == c.imageId && r.vmpl == c.vmpl
      && GapsOf(Write(c, g)).afterVmpl == g.afterVmpl
  {
    WrittenSegment(c, g, 0);
    WrittenSegment(c, g, 1);
    WrittenSegment(c, g, 2);
    WrittenSegment(c, g, 3);
    WrittenSegment(c, g, 4);
    WrittenSegment(c, g, 5);
    WrittenSegment(c, g, 6);
  }

  lemma ReadMiddle(c: Content, g: Gaps)
    requires Sized(c, g)
    ensures |Write(c, g)| == 1184
    ensures var r := ContentOf(Write(c, g));
      && r.reportData == c.reportData && r.measurement == c.measurement && r.hostData == c.hostData
      && r.idKeyDigest == c.idKeyDigest && r.authorKeyDigest == c.authorKeyDigest && r.reportId == c.reportId
      && GapsOf(Write(c, g)).afterReportId == g.afterReportId
  {
    WrittenSegment(c, g, 7);
    WrittenSegment(c, g, 8);
    WrittenSegment(c, g, 9);
    WrittenSegment(c, g, 10);
    WrittenSegment(c, g, 11);
    WrittenSegment(c, g, 12);
    WrittenSegment(c, g, 13);
  }

  lemma ReadTail(c: Content, g: Gaps)
    requires Sized(c, g)
    ensures |Write(c, g)| == 1184
    ensures var r := ContentOf(Write(c, g));
      && r.reportedTcb == c.reportedTcb && r.cpuid == c.cpuid && r.launchTcb == c.launchTcb
      && GapsOf(Write(c, g)).afterCpuid == g.afterCpuid && GapsOf(Write(c, g)).tail == g.tail
  {
    WrittenSegment(c, g, 14);
    WrittenSegment(c, g, 15);
    WrittenSegment(c, g, 16);
    WrittenSegment(c, g, 17);
    WrittenSegment(c, g, 18);
  }

  /** Reading back what was written. */
  lemma ReadWritten(c: Content, g: Gaps)
    requires Sized(c, g)
    ensures |Write(c, g)| == REPORT_SIZE
    ensures ContentOf(Write(c, g)) == c && GapsOf(Write(c, g)) == g
  {
    ReadHead(c, g);
    ReadMiddle(c, g);
    ReadTail(c, g);
  }

  lemma ContentIsSized(data: seq<byte>)
    requires |data| == REPORT_SIZE
    ensures Sized(ContentOf(data), GapsOf(data))
  {
  }

  lemma ContentIsCut(data: seq<byte>, k: nat)
    requires |data| == REPORT_SIZE && k < 19
    ensures IsCut(data, Segments(ContentOf(data), GapsOf(data))[k], OFFSETS[k], OFFSETS[k + 1])
  {
  }

  /** Every report is what the writer makes of its content and its gaps. */
  lemma WriteRead(data: seq<byte>)
    requires |data| == REPORT_SIZE
    ensures Sized(ContentOf(data), GapsOf(data)) && Write(ContentOf(data), GapsOf(data)) == data
  {
    hide Concat, ContentOf, GapsOf;
    var s, offsets := Segments(ContentOf(data), GapsOf(data)), OFFSETS;
    ContentIsSized(data);
    forall k | 0 <= k < 19
      ensures IsCut(data, s[k], offsets[k], offsets[k + 1])
    {
      ContentIsCut(data, k);
    }
    CutJoins(data, s, offsets, 19);
    assert s[..19] == s && data[..1184] == data;
  }

  // ── The parser and the writer ───────────────────────────────────

  /** The parser reads the content alone: whatever the other bytes are, two reports
      with the same content parse alike. */
  lemma OnlyContentMatters(a: seq<byte>, b: seq<byte>, generation: Option<Generation>)
    requires |a| == |b| == REPORT_SIZE && ContentOf(a) == ContentOf(b)
    ensures Parse(a, generation) == Parse(b, generation)
  {
    assert a[0x188..0x18B] == b[0x188..0x18B];
    assert a[0x188] == a[0x188..0x18B][0] == b[0x188..0x18B][0];
    assert a[0x189] == a[0x188..0x18B][1] == b[0x188..0x18B][1];
    assert a[0x18A] == a[0x188..0x18B][2] == b[0x188..0x18B][2];
  }

  /** What a parsed report says of the content it came from. */
  predicate Tells(r: AttestationReport, c: Content, layout: Option<Layout>)
    requires |c.reportedTcb| == 8 && |c.launchTcb| == 8 && |c.cpuid| == 3
  {
    && r.version == FromLe(c.version) && r.guestSvn == FromLe(c.guestSvn) && r.policy == FromLe(c.policy)
    && r.familyId == c.familyId && r.imageId == c.imageId && r.vmpl == FromLe(c.vmpl)
    && r.reportData == c.reportData && r.measurement == c.measurement && r.hostData == c.hostData
    && r.idKeyDigest == c.idKeyDigest && r.authorKeyDigest == c.authorKeyDigest && r.reportId == c.reportId
    && r.cpuid == (if r.version < 3 then None else Some(Cpuid(c.cpuid[0], c.cpuid[1], c.cpuid[2])))
    && r.reportedTcb == (if layout.Some? then Some(FromBytes(c.reportedTcb, layout.value)) else None)
    && r.launchTcb == (if layout.Some? && r.version >= 3 then Some(FromBytes(c.launchTcb, layout.value)) else None)
  }

  function LayoutOf(g: Option<Generation>): Option<Layout> {
    if g.Some? then Some(g.value.layout) else None
  }

  lemma ParseTells(data: seq<byte>, generation: Option<Generation>)
    requires Parse(data, generation).Ok?
    ensures Tells(Parse(data, generation).value, ContentOf(data), LayoutOf(Settled(data, generation)))
  {
  }

  /** The parser inverts the writer: a report written with this content, whatever else
      is in its bytes, parses to these fields if it parses at all. */
  lemma ParseInvertsWrite(c: Content, g: Gaps, generation: Option<Generation>)
    requires Sized(c, g) && Parse(Write(c, g), generation).Ok?
    ensures Tells(Parse(Write(c, g), generation).value, c, LayoutOf(Settled(Write(c, g), generation)))
  {
    ReadWritten(c, g);
    ParseTells(Write(c, g), generation);
  }

  /** A layout reads two values alike exactly when they differ in reserved bytes only. */
  lemma LayoutReadsAlike(x: seq<byte>, y: seq<byte>, layout: Layout)
    requires |x| == |y| == 8
    ensures FromBytes(x, layout) == FromBytes(y, layout) <==> ClearReserved(x, layout) == ClearReserved(y, layout)
  {
    if ClearReserved(x, layout) == ClearReserved(y, layout) {
      var cx, cy := ClearReserved(x, layout), ClearReserved(y, layout);
      assert forall i | 0 <= i < 8 :: cx[i] == cy[i];
    }
  }

  lemma SameNumber(x: seq<byte>, y: seq<byte>)
    requires |x| == |y| && FromLe(x) == FromLe(y)
    ensures x == y
  {
    LeRoundTripBack(x);
    LeRoundTripBack(y);
  }

  /** The contents agree in all that is always read. */
  predicate SamePlainFields(c: Content, d: Content) {
    c.(reportedTcb := [], cpuid := [], launchTcb := []) == d.(reportedTcb := [], cpuid := [], launchTcb := [])
  }

  /** The TCB fields agree as far as this version and layout read them. */
  predicate SameTcbFields(c: Content, d: Content, version: nat, layout: Option<Layout>)
    requires |c.reportedTcb| == |d.reportedTcb| == |c.launchTcb| == |d.launchTcb| == 8
  {
    layout.Some? ==>
      && ClearReserved(c.reportedTcb, layout.value) == ClearReserved(d.reportedTcb, layout.value)
      && (version >= 3 ==> ClearReserved(c.launchTcb, layout.value) == ClearReserved(d.launchTcb, layout.value))
  }

  lemma DecodeAlike(a: seq<byte>, b: seq<byte>, version: nat, versionNote: Option<nat>, cpuid: Option<Cpuid>,
                    note: Option<CpuidNote>, g: Option<Generation>)
    requires |a| == |b| == REPORT_SIZE && SamePlainFields(ContentOf(a), ContentOf(b))
    requires SameTcbFields(ContentOf(a), ContentOf(b), version, LayoutOf(g))
    ensures Decode(a, version, versionNote, cpuid, note, g) == Decode(b, version, versionNote, cpuid, note, g)
  {
    if g.Some? {
      LayoutReadsAlike(ContentOf(a).reportedTcb, ContentOf(b).reportedTcb, g.value.layout);
      LayoutReadsAlike(ContentOf(a).launchTcb, ContentOf(b).launchTcb, g.value.layout);
    }
  }

  /** `parse` after its checks: everything but the bytes comes from version and CPUID. */
  lemma ParseIsDecode(data: seq<byte>, generation: Option<Generation>)
    requires Parse(data, generation).Ok?
    ensures var r := Parse(data, generation).value;
      r == Decode(data, VersionOf(data), r.versionNote, r.cpuid, r.cpuidNote, Settled(data, generation))
  {
  }

  lemma SameHead(a: seq<byte>, b: seq<byte>, generation: Option<Generation>)
    requires Parse(a, generation).Ok? && Parse(b, generation).Ok?
    requires VersionOf(a) == VersionOf(b) && (VersionOf(a) >= 3 ==> CpuidOf(a) == CpuidOf(b))
    ensures var r, q := Parse(a, generation).value, Parse(b, generation).value;
      r.versionNote == q.versionNote && r.cpuid == q.cpuid && r.cpuidNote == q.cpuidNote
    ensures Settled(a, generation) == Settled(b, generation)
  {
  }

  lemma AlikeFromContent(a: seq<byte>, b: seq<byte>, generation: Option<Generation>)
    requires Parse(a, generation).Ok? && Parse(b, generation).Ok?
    requires SamePlainFields(ContentOf(a), ContentOf(b))
    requires VersionOf(a) >= 3 ==> ContentOf(a).cpuid == ContentOf(b).cpuid
    requires SameTcbFields(ContentOf(a), ContentOf(b), VersionOf(a), LayoutOf(Settled(a, generation)))
    ensures Parse(a, generation) == Parse(b, generation)
  {
    SameCpuid(a, b);
    assert ContentOf(a).version == ContentOf(b).version;
    SameHead(a, b, generation);
    ParseIsDecode(a, generation);
    ParseIsDecode(b, generation);
    var r := Parse(a, generation).value;
    DecodeAlike(a, b, VersionOf(a), r.versionNote, r.cpuid, r.cpuidNote, Settled(a, generation));
  }

  lemma ContentFromAlike(a: seq<byte>, b: seq<byte>, generation: Option<Generation>)
    requires Parse(a, generation).Ok? && Parse(a, generation) == Parse(b, generation)
    ensures SamePlainFields(ContentOf(a), ContentOf(b))
    ensures VersionOf(a) >= 3 ==> ContentOf(a).cpuid == ContentOf(b).cpuid
    ensures SameTcbFields(ContentOf(a), ContentOf(b), VersionOf(a), LayoutOf(Settled(a, generation)))
  {
    var c, d := ContentOf(a), ContentOf(b);
    ParseTells(a, generation);
    ParseTells(b, generation);
    SameNumber(c.version, d.version);
    SameNumber(c.guestSvn, d.guestSvn);
    SameNumber(c.policy, d.policy);
    SameNumber(c.vmpl, d.vmpl);
    if VersionOf(a) >= 3 {
      assert CpuidOf(a) == Parse(a, generation).value.cpuid.value == CpuidOf(b);
      SameCpuid(a, b);
    }
    SameHead(a, b, generation);
    var g := Settled(a, generation);
    if g.Some? {
      LayoutReadsAlike(c.reportedTcb, d.reportedTcb, g.value.layout);
      LayoutReadsAlike(c.launchTcb, d.launchTcb, g.value.layout);
    }
  }

  /** Nothing that is read is lost or mixed up: two reports parse alike if and only if
      they agree in every field the parser reads, the reserved bytes of the layout in
      use, and what version 2 does not have, left aside. */
  lemma ParsedAlikeIff(a: seq<byte>, b: seq<byte>, generation: Option<Generation>)
    requires Parse(a, generation).Ok? && Parse(b, generation).Ok?
    ensures Parse(a, generation) == Parse(b, generation)
            <==> && SamePlainFields(ContentOf(a), ContentOf(b))
                 && (VersionOf(a) >= 3 ==> ContentOf(a).cpuid == ContentOf(b).cpuid)
                 && SameTcbFields(ContentOf(a), ContentOf(b), VersionOf(a), LayoutOf(Settled(a, generation)))
  {
    hide Decode, SamePlainFields, SameTcbFields;
    if Parse(a, generation) == Parse(b, generation) {
      ContentFromAlike(a, b, generation);
    } else if && SamePlainFields(ContentOf(a), ContentOf(b))
              && (VersionOf(a) >= 3 ==> ContentOf(a).cpuid == ContentOf(b).cpuid)
              && SameTcbFields(ContentOf(a), ContentOf(b), VersionOf(a), LayoutOf(Settled(a, generation))) {
      AlikeFromContent(a, b, generation);
    }
  }

  lemma SameCpuid(a: seq<byte>, b: seq<byte>)
    requires |a| == |b| == REPORT_SIZE
    ensures CpuidOf(a) == CpuidOf(b) <==> ContentOf(a).cpuid == ContentOf(b).cpuid
  {
    assert ContentOf(a).cpuid == [a[0x188], a[0x189], a[0x18A]];
    assert ContentOf(b).cpuid == [b[0x188], b[0x189], b[0x18A]];
  }
}
