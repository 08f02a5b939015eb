/** Decoding an ATTESTATION_REPORT (sev_verify/attestation_report.py; the layout is
    that of section 7.3 of the AMD SEV-SNP Firmware ABI Specification, publication
    56860). */
module AttestationReports {
  import opened Models
  import opened TcbVersions

  // ── Processor generations ───────────────────────────────────────

  datatype GenerationName = MilanGen | GenoaGen | BergamoSienaGen | TurinGen

  /** The pair `(name, tcb_layout)` that the functions pass around. */
  datatype Generation = Generation(name: GenerationName, layout: Layout)

  /** A row of SUPPORTED_GENERATIONS; models from `lo` up to, not including, `hi`. */
  datatype Row = Row(family: nat, lo: nat, hi: nat, generation: Generation)

  const SUPPORTED_GENERATIONS := [
    Row(0x19, 0x00, 0x10, Generation(MilanGen, Legacy)),
    Row(0x19, 0x10, 0x20, Generation(GenoaGen, Legacy)),
    Row(0x19, 0xA0, 0xB0, Generation(BergamoSienaGen, Legacy)),
    Row(0x1A, 0x00, 0x12, Generation(TurinGen, Turin)) ]

  predicate Covers(row: Row, family: int, model: int) {
    family == row.family && row.lo <= model < row.hi
  }

  /** The generation of a family and model; None where the source raises. */
  function FirstRow(rows: seq<Row>, family: int, model: int): Option<Generation> {
    if rows == [] then None
    else if Covers(rows[0], family, model) then Some(rows[0].generation)
    else FirstRow(rows[1..], family, model)
  }

  function Resolve(family: int, model: int): Option<Generation> {
    FirstRow(SUPPORTED_GENERATIONS, family, model)
  }

  method ResolveGeneration(family: int, model: int) returns (g: Option<Generation>)
    ensures g == Resolve(family, model)
  {
    g := None;
    var rows := SUPPORTED_GENERATIONS;
    for i := 0 to |rows|
      invariant g == None && Resolve(family, model) == FirstRow(rows[i..], family, model)
    {
      if Covers(rows[i], family, model) {
        return Some(rows[i].generation);
      }
      assert rows[i..][1..] == rows[i + 1..];
    }
  }

  /** The order of the rows does not matter: the result is that of the one row that
      covers the processor, and None exactly when no row does. */
  lemma TableIsUnambiguous(family: int, model: int)
    ensures forall i, j | 0 <= i < 4 && 0 <= j < 4
              && Covers(SUPPORTED_GENERATIONS[i], family, model)
              && Covers(SUPPORTED_GENERATIONS[j], family, model) :: i == j
    ensures forall i | 0 <= i < 4 && Covers(SUPPORTED_GENERATIONS[i], family, model) ::
              Resolve(family, model) == Some(SUPPORTED_GENERATIONS[i].generation)
    ensures Resolve(family, model).None? <==>
              forall i | 0 <= i < 4 :: !Covers(SUPPORTED_GENERATIONS[i], family, model)
  {
    RowsFound(SUPPORTED_GENERATIONS, family, model);
  }

  lemma {:induction false} RowsFound(rows: seq<Row>, family: int, model: int)
    requires forall i, j | 0 <= i < |rows| && 0 <= j < |rows|
               && Covers(rows[i], family, model) && Covers(rows[j], family, model) :: i == j
    ensures forall i | 0 <= i < |rows| && Covers(rows[i], family, model) ::
              FirstRow(rows, family, model) == Some(rows[i].generation)
    ensures FirstRow(rows, family, model).None? <==> forall i | 0 <= i < |rows| :: !Covers(rows[i], family, model)
  {
    if rows != [] {
      var rest := rows[1..];
      assert forall i | 0 <= i < |rest| :: rest[i] == rows[i + 1];
      RowsFound(rest, family, model);
      forall i | 0 <= i < |rows| && Covers(rows[i], family, model)
        ensures FirstRow(rows, family, model) == Some(rows[i].generation)
      {
        if i > 0 && !Covers(rows[0], family, model) {
          assert Covers(rest[i - 1], family, model);
        }
      }
      if !Covers(rows[0], family, model) && FirstRow(rows, family, model).None? {
        forall i | 0 <= i < |rows| ensures !Covers(rows[i], family, model) {
          assert i > 0 ==> !Covers(rest[i - 1], family, model);
        }
      }
    }
  }

  // ── The report ──────────────────────────────────────────────────

  const REPORT_SIZE := 1184

  datatype ReportError = Malformed | UnsupportedVersion | UnsupportedCpu
  datatype Result<T> = Ok(value: T) | Err(error: ReportError)

  datatype Cpuid = Cpuid(family: byte, model: byte, stepping: byte)

  /** Why the report's own CPUID was not used: the host's generation stood in for it,
      or there was none and the TCB is left undecoded. */
  datatype CpuidNote = DecodedAsHost(cpuid: Cpuid, host: GenerationName) | LeftUndecoded(cpuid: Cpuid)

  datatype AttestationReport = AttestationReport(
    version: nat, guestSvn: nat, policy: nat,
    familyId: seq<byte>, imageId: seq<byte>, vmpl: nat, reportData: seq<byte>,
    measurement: seq<byte>, hostData: seq<byte>, idKeyDigest: seq<byte>,
    authorKeyDigest: seq<byte>, reportId: seq<byte>,
    reportedTcb: Option<TcbVersion>, cpuid: Option<Cpuid>, generation: Option<GenerationName>,
    cpuidNote: Option<CpuidNote>, versionNote: Option<nat>, launchTcb: Option<TcbVersion>)

  const KNOWN_VERSIONS: set<nat> := {2, 3, 5}
  const OLDEST_KNOWN := 2

  function VersionOf(data: seq<byte>): nat
    requires |data| == REPORT_SIZE
  {
    FromLe(data[0x000..0x004])
  }

  function CpuidOf(data: seq<byte>): Cpuid
    requires |data| == REPORT_SIZE
  {
    Cpuid(data[0x188], data[0x189], data[0x18A])
  }

  /** `parse`, from the checks down; a generation of None is one not supplied. */
  function Parse(data: seq<byte>, generation: Option<Generation>): Result<AttestationReport> {
    if |data| != REPORT_SIZE then Err(Malformed)
    else
      var version := VersionOf(data);
      if version !in KNOWN_VERSIONS && version < OLDEST_KNOWN then Err(UnsupportedVersion)
      else
        var versionNote := if version in KNOWN_VERSIONS then None else Some(version);
        if version < 3 then Ok(Decode(data, version, versionNote, None, None, generation))
        else
          var cpuid := CpuidOf(data);
          var own := Resolve(cpuid.family, cpuid.model);
          match (generation, own)
          case (Some(host), Some(g)) =>
            if g != host then Err(UnsupportedCpu)
            else Ok(Decode(data, version, versionNote, Some(cpuid), None, generation))
          case (Some(host), None) =>
            Ok(Decode(data, version, versionNote, Some(cpuid), Some(DecodedAsHost(cpuid, host.name)), generation))
          case (None, Some(g)) =>
            Ok(Decode(data, version, versionNote, Some(cpuid), None, Some(g)))
          case (None, None) =>
            Ok(Decode(data, version, versionNote, Some(cpuid), Some(LeftUndecoded(cpuid)), None))
  }

  /** The fields, once the generation that decides the TCB layout is settled. */
  function Decode(data: seq<byte>, version: nat, versionNote: Option<nat>, cpuid: Option<Cpuid>,
                  cpuidNote: Option<CpuidNote>, generation: Option<Generation>): AttestationReport
    requires |data| == REPORT_SIZE
  {
    AttestationReport(
      version, FromLe(data[0x004..0x008]), FromLe(data[0x008..0x010]),
      data[0x010..0x020], data[0x020..0x030], FromLe(data[0x030..0x034]), data[0x050..0x090],
      data[0x090..0x0C0], data[0x0C0..0x0E0], data[0x0E0..0x110],
      data[0x110..0x140], data[0x140..0x160],
      if generation.Some? then Some(FromBytes(data[0x180..0x188], generation.value.layout)) else None,
      cpuid,
      if generation.Some? then Some(generation.value.name) else None,
      cpuidNote, versionNote,
      if generation.Some? && version >= 3 then Some(FromBytes(data[0x1F0..0x1F8], generation.value.layout)) else None)
  }

  /** The generation that a parse settles on. */
  function Settled(data: seq<byte>, generation: Option<Generation>): Option<Generation>
    requires |data| == REPORT_SIZE
  {
    if generation.Some? then generation
    else if VersionOf(data) < 3 then None
    else Resolve(CpuidOf(data).family, CpuidOf(data).model)
  }

  /** When `parse` raises, and when the optional parts of its result are there. */
  lemma ParseDecides(data: seq<byte>, generation: Option<Generation>)
    ensures Parse(data, generation) == Err(Malformed) <==> |data| != 1184
    ensures |data| == 1184 ==>
      var version, own := VersionOf(data), Resolve(CpuidOf(data).family, CpuidOf(data).model);
      && (Parse(data, generation) == Err(UnsupportedVersion) <==> version < 2)
      && (Parse(data, generation) == Err(UnsupportedCpu) <==>
            version >= 3 && generation.Some? && own.Some? && own != generation)
      && (Parse(data, generation).Ok? ==>
            var r := Parse(data, generation).value;
            && r.version == version
            && (r.reportedTcb.Some? <==> generation.Some? || (version >= 3 && own.Some?))
            && (r.launchTcb.Some? <==> r.reportedTcb.Some? && version >= 3)
            && (r.generation.Some? <==> r.reportedTcb.Some?)
            && (r.cpuid.Some? <==> version >= 3)
            && (r.cpuid.Some? ==> r.cpuid.value == CpuidOf(data))
            && (r.cpuidNote.Some? <==> version >= 3 && own.None?)
            && (r.cpuidNote.Some? && generation.Some? ==>
                  r.cpuidNote.value == DecodedAsHost(CpuidOf(data), generation.value.name))
            && (r.cpuidNote.Some? && generation.None? ==> r.cpuidNote.value == LeftUndecoded(CpuidOf(data)))
            && (r.versionNote.Some? <==> version == 4 || version > 5)
            && (r.versionNote.Some? ==> r.versionNote.value == version))
  {
  }

  /** The TCBs are decoded with one layout, that of the generation settled on; with no
      disagreement left, it is also the one the report's own CPUID names, if it names
      any, and an FMC is read exactly on Turin. */
  lemma ParseUsesOneLayout(data: seq<byte>, generation: Option<Generation>)
    requires Parse(data, generation).Ok?
    ensures var r, g, own := Parse(data, generation).value, Settled(data, generation),
                             Resolve(CpuidOf(data).family, CpuidOf(data).model);
      && (g.Some? ==>
            && r.generation == Some(g.value.name)
            && r.reportedTcb == Some(FromBytes(data[0x180..0x188], g.value.layout))
            && (r.version >= 3 ==> r.launchTcb == Some(FromBytes(data[0x1F0..0x1F8], g.value.layout)))
            && (r.version >= 3 && own.Some? ==> own == g)
            && (r.reportedTcb.value.fmc.Some? <==> g.value.layout.Turin?))
      && (g.None? ==> r.generation.None? && r.reportedTcb.None? && r.launchTcb.None?)
  {
  }

  /** Little-endian integers, byte by byte. */
  lemma FourBytes(s: seq<byte>)
    requires |s| == 4
    ensures FromLe(s) == s[0] as int + 0x100 * s[1] as int + 0x1_0000 * s[2] as int + 0x100_0000 * s[3] as int
  {
    assert FromLe(s[1..]) == s[1] as int + 256 * FromLe(s[1..][1..]);
    assert FromLe(s[1..][1..]) == s[2] as int + 256 * FromLe(s[1..][1..][1..]);
    assert FromLe(s[1..][1..][1..]) == s[3] as int;
  }

  lemma EightBytes(s: seq<byte>)
    requires |s| == 8
    ensures FromLe(s) == FromLe(s[..4]) + 0x1_0000_0000 * FromLe(s[4..])
  {
    FourBytes(s[..4]);
    assert s[1..][1..][1..][1..] == s[4..];
    assert FromLe(s) == s[0] as int + 256 * FromLe(s[1..]);
    assert FromLe(s[1..]) == s[1] as int + 256 * FromLe(s[1..][1..]);
    assert FromLe(s[1..][1..]) == s[2] as int + 256 * FromLe(s[1..][1..][1..]);
    assert FromLe(s[1..][1..][1..]) == s[3] as int + 256 * FromLe(s[4..]);
  }

  /** The field of this size at this offset. */
  function FieldAt(data: seq<byte>, offset: nat, size: nat): (s: seq<byte>)
    requires offset + size <= |data|
    ensures |s| == size && forall i | 0 <= i < size :: s[i] == data[offset + i]
  {
    data[offset..offset + size]
  }

  /** What is read from where: the structure of an ATTESTATION_REPORT, as section 7.3 of
      the AMD SEV-SNP Firmware ABI Specification lays it out. */
  lemma ParseReadsAbi(data: seq<byte>, generation: Option<Generation>)
    requires Parse(data, generation).Ok?
    ensures var r := Parse(data, generation).value;
      && r.version == FromLe(FieldAt(data, 0x00, 4)) && r.guestSvn == FromLe(FieldAt(data, 0x04, 4))
      && r.policy == FromLe(FieldAt(data, 0x08, 8)) && r.vmpl == FromLe(FieldAt(data, 0x30, 4))
      && r.familyId == FieldAt(data, 0x10, 16) && r.imageId == FieldAt(data, 0x20, 16)
      && r.reportData == FieldAt(data, 0x50, 64) && r.measurement == FieldAt(data, 0x90, 48)
      && r.hostData == FieldAt(data, 0xC0, 32) && r.idKeyDigest == FieldAt(data, 0xE0, 48)
      && r.authorKeyDigest == FieldAt(data, 0x110, 48) && r.reportId == FieldAt(data, 0x140, 32)
      && (r.cpuid.Some? ==> r.cpuid.value == Cpuid(data[0x188], data[0x189], data[0x18A]))
    ensures var r, g := Parse(data, generation).value, Settled(data, generation);
      && (r.reportedTcb.Some? ==> g.Some? && r.reportedTcb.value == FromBytes(FieldAt(data, 0x180, 8), g.value.layout))
      && (r.launchTcb.Some? ==> g.Some? && r.launchTcb.value == FromBytes(FieldAt(data, 0x1F0, 8), g.value.layout))
  {
    hide FromBytes, FromLe, Resolve;
  }
}
