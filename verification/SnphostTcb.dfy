/** TCB values as the host tools show and take them
    (sev_verify/cert_tests/c3_0/c3_0_0_1/snphost_config_commit.py). */
module SnphostTcb {
  import opened Models
  import opened Texts
  import opened TcbVersions

  /** The names "Boot Loader", "TEE", "SNP", "Microcode" and "FMC". */
  datatype Field = BootLoader | Tee | Snp | Microcode | Fmc

  /** One parsed section: field name to value text. */
  type Fields = map<Field, string>

  const CORE_FIELDS := {BootLoader, Tee, Snp, Microcode}
  const ALL_FIELDS := CORE_FIELDS + {Fmc}

  /** Core fields must be on both sides; a field on both sides must be equal. */
  predicate FieldsMatch(a: Fields, b: Fields) {
    && (forall f | f in CORE_FIELDS :: f in a && f in b)
    && (forall f | f in ALL_FIELDS && f in a && f in b :: a[f] == b[f])
  }

  /** Field by field. */
  lemma FieldsMatchIff(a: Fields, b: Fields)
    ensures FieldsMatch(a, b)
            <==> && BootLoader in a && BootLoader in b && a[BootLoader] == b[BootLoader]
                 && Tee in a && Tee in b && a[Tee] == b[Tee]
                 && Snp in a && Snp in b && a[Snp] == b[Snp]
                 && Microcode in a && Microcode in b && a[Microcode] == b[Microcode]
                 && (Fmc in a && Fmc in b ==> a[Fmc] == b[Fmc])
  {
    var fields := [BootLoader, Tee, Snp, Microcode, Fmc];
    assert forall f | f in fields :: f in ALL_FIELDS;
  }

  function Section(bl: string, tee: string, snp: string, ucode: string, fmc: Option<string>): Fields {
    map[BootLoader := bl, Tee := tee, Snp := snp, Microcode := ucode]
    + (if fmc.Some? then map[Fmc := fmc.value] else map[])
  }

  /** A version as the tools print it.  Without FMC the line is "None", or missing
      in versions of the tools that do not print it. */
  function Show(t: TcbVersion, printsNone: bool): Fields {
    Section(Decimal(t.bootloader), Decimal(t.tee), Decimal(t.snp), Decimal(t.microcode), ShowFmc(t.fmc, printsNone))
  }

  function ShowFmc(fmc: Option<int>, printsNone: bool): Option<string> {
    if fmc.Some? then Some(Decimal(fmc.value)) else if printsNone then Some("None") else None
  }

  /** `int(text)` for the plain numerals the tools print; other text raises. */
  function ReadInt(text: string): Option<int> {
    if text != "" && IsNumeral(text) then Some(ParseDigits(text)) else None
  }

  /** The values `steps()` reads; None where it raises. */
  function ReadFields(fields: Fields): Option<TcbVersion> {
    if exists f | f in CORE_FIELDS :: f !in fields || ReadInt(fields[f]).None? then None
    else
      var fmc := if Fmc in fields then fields[Fmc] else "";
      if fmc != "" && fmc != "None" && ReadInt(fmc).None? then None
      else
        assert forall f | f in CORE_FIELDS :: f in fields && ReadInt(fields[f]).Some?;
        Some(TcbVersion(ReadInt(fields[BootLoader]).value, ReadInt(fields[Tee]).value,
                        ReadInt(fields[Snp]).value, ReadInt(fields[Microcode]).value,
                        if fmc == "" || fmc == "None" then None else ReadInt(fmc)))
  }

  /** A numeral as it is printed. */
  predicate HasNumeral(fields: Fields, f: Field) {
    f in fields && fields[f] != "" && IsNumeral(fields[f])
  }

  /** Reading raises exactly if a core field is missing or is no numeral, or an FMC is given
      that is neither empty, nor "None", nor a numeral. */
  lemma ReadFieldsIff(fields: Fields)
    ensures ReadFields(fields).Some?
            <==> && HasNumeral(fields, BootLoader) && HasNumeral(fields, Tee)
                 && HasNumeral(fields, Snp) && HasNumeral(fields, Microcode)
                 && (Fmc in fields ==> fields[Fmc] in ["", "None"] || HasNumeral(fields, Fmc))
    ensures ReadFields(fields).Some? ==>
      var t := ReadFields(fields).value;
      && t.bootloader == ParseDigits(fields[BootLoader]) && t.tee == ParseDigits(fields[Tee])
      && t.snp == ParseDigits(fields[Snp]) && t.microcode == ParseDigits(fields[Microcode])
      && (t.fmc.Some? <==> Fmc in fields && fields[Fmc] !in ["", "None"])
      && (t.fmc.Some? ==> t.fmc.value == ParseDigits(fields[Fmc]))
  {
    hide ParseDigits, IsNumeral;
    NoneIsNoNumeral();
  }

  lemma NoneIsNoNumeral()
    ensures !IsNumeral("None")
  {
    assert "None"[0] == 'N';
  }

  predicate Natural(t: TcbVersion) {
    && t.bootloader >= 0 && t.tee >= 0 && t.snp >= 0 && t.microcode >= 0
    && (t.fmc.Some? ==> t.fmc.value >= 0)
  }

  lemma DecimalReads(n: nat)
    ensures ReadInt(Decimal(n)) == Some(n) && Decimal(n) != "" && Decimal(n) != "None"
  {
    DigitsRoundTrip(n);
    assert "None"[0] == 'N';
  }

  lemma ShownReads(t: TcbVersion, printsNone: bool)
    requires Natural(t)
    ensures ReadInt(Decimal(t.bootloader)) == Some(t.bootloader) && ReadInt(Decimal(t.tee)) == Some(t.tee)
    ensures ReadInt(Decimal(t.snp)) == Some(t.snp) && ReadInt(Decimal(t.microcode)) == Some(t.microcode)
    ensures t.fmc.Some? ==> ReadInt(Decimal(t.fmc.value)) == t.fmc
                            && Decimal(t.fmc.value) != "" && Decimal(t.fmc.value) != "None"
  {
    DecimalReads(t.bootloader);
    DecimalReads(t.tee);
    DecimalReads(t.snp);
    DecimalReads(t.microcode);
    if t.fmc.Some? {
      DecimalReads(t.fmc.value);
    }
  }

  lemma ReadSection(bl: string, tee: string, snp: string, ucode: string, fmc: Option<string>)
    requires ReadInt(bl).Some? && ReadInt(tee).Some? && ReadInt(snp).Some? && ReadInt(ucode).Some?
    requires fmc.Some? && fmc.value != "" && fmc.value != "None" ==> ReadInt(fmc.value).Some?
    ensures ReadFields(Section(bl, tee, snp, ucode, fmc))
            == Some(TcbVersion(ReadInt(bl).value, ReadInt(tee).value, ReadInt(snp).value, ReadInt(ucode).value,
                               if fmc.None? || fmc.value == "" || fmc.value == "None" then None
                               else ReadInt(fmc.value)))
  {
  }

  /** Reading what a tool printed gives the version back. */
  lemma ReadShown(t: TcbVersion, printsNone: bool)
    requires Natural(t)
    ensures ReadFields(Show(t, printsNone)) == Some(t)
  {
    ShownReads(t, printsNone);
    ReadSection(Decimal(t.bootloader), Decimal(t.tee), Decimal(t.snp), Decimal(t.microcode),
                ShowFmc(t.fmc, printsNone));
  }

  lemma MatchSections(bl: string, tee: string, snp: string, ucode: string, fmc: Option<string>,
                      bl': string, tee': string, snp': string, ucode': string, fmc': Option<string>)
    ensures FieldsMatch(Section(bl, tee, snp, ucode, fmc), Section(bl', tee', snp', ucode', fmc'))
            <==> && bl == bl' && tee == tee' && snp == snp' && ucode == ucode'
                 && (fmc.None? || fmc'.None? || fmc == fmc')
  {
    var x, y := Section(bl, tee, snp, ucode, fmc), Section(bl', tee', snp', ucode', fmc');
    if FieldsMatch(x, y) {
      assert x[BootLoader] == y[BootLoader] && x[Tee] == y[Tee];
      assert x[Snp] == y[Snp] && x[Microcode] == y[Microcode];
    }
  }

  /** The comparison of printed versions is equality, except that it cannot see an
      FMC that is printed on one side only. */
  lemma MatchShown(a: TcbVersion, b: TcbVersion, printsNone: bool)
    requires Natural(a) && Natural(b)
    ensures FieldsMatch(Show(a, printsNone), Show(b, printsNone))
            <==> && a.(fmc := None) == b.(fmc := None)
                 && (a.fmc == b.fmc || (!printsNone && (a.fmc.None? || b.fmc.None?)))
  {
    ShownReads(a, printsNone);
    ShownReads(b, printsNone);
    MatchSections(Decimal(a.bootloader), Decimal(a.tee), Decimal(a.snp), Decimal(a.microcode),
                  ShowFmc(a.fmc, printsNone),
                  Decimal(b.bootloader), Decimal(b.tee), Decimal(b.snp), Decimal(b.microcode),
                  ShowFmc(b.fmc, printsNone));
  }

  // ── Lowering ────────────────────────────────────────────────────

  /** The first non-zero of boot loader, SNP, TEE and microcode goes down by one;
      with all four zero `steps()` raises. */
  function Lower(t: TcbVersion): Option<TcbVersion> {
    if t.bootloader > 0 then Some(t.(bootloader := t.bootloader - 1))
    else if t.snp > 0 then Some(t.(snp := t.snp - 1))
    else if t.tee > 0 then Some(t.(tee := t.tee - 1))
    else if t.microcode > 0 then Some(t.(microcode := t.microcode - 1))
    else None
  }

  function CoreSum(t: TcbVersion): int {
    t.bootloader + t.tee + t.snp + t.microcode
  }

  /** One core field went down, by one, and it is the first that is above zero in the
      order boot loader, SNP, TEE, microcode; nothing else changed. */
  predicate LowersFirst(t: TcbVersion, lo: TcbVersion) {
    && lo.fmc == t.fmc && CoreSum(lo) == CoreSum(t) - 1
    && lo.bootloader <= t.bootloader && lo.snp <= t.snp && lo.tee <= t.tee && lo.microcode <= t.microcode
    && (lo.bootloader < t.bootloader <==> t.bootloader > 0)
    && (lo.snp < t.snp <==> t.bootloader <= 0 < t.snp)
    && (lo.tee < t.tee <==> t.bootloader <= 0 && t.snp <= 0 < t.tee)
    && (lo.microcode < t.microcode ==> t.microcode > 0)
  }

  /** As `steps()` does it, on local variables: it raises exactly when no core field is
      above zero, and otherwise lowers the first that is. */
  method LowerOneField(bl: int, tee: int, snp: int, ucode: int, fmc: Option<int>)
    returns (raised: bool, loBl: int, loTee: int, loSnp: int, loUcode: int)
    ensures raised <==> bl <= 0 && tee <= 0 && snp <= 0 && ucode <= 0
    ensures !raised ==>
      LowersFirst(TcbVersion(bl, tee, snp, ucode, fmc), TcbVersion(loBl, loTee, loSnp, loUcode, fmc))
  {
    raised, loBl, loTee, loSnp, loUcode := false, bl, tee, snp, ucode;
    if bl > 0 {
      loBl := loBl - 1;
    } else if snp > 0 {
      loSnp := loSnp - 1;
    } else if tee > 0 {
      loTee := loTee - 1;
    } else if ucode > 0 {
      loUcode := loUcode - 1;
    } else {
      raised := true;
    }
  }

  /** That determines the lowered version. */
  lemma LoweringIsDetermined(t: TcbVersion, lo: TcbVersion)
    ensures LowersFirst(t, lo) <==> Lower(t) == Some(lo)
    ensures Lower(t).None? <==> t.bootloader <= 0 && t.tee <= 0 && t.snp <= 0 && t.microcode <= 0
  {
    if LowersFirst(t, lo) {
      assert Lower(t).Some?;
      var l := Lower(t).value;
      assert l.bootloader == lo.bootloader && l.snp == lo.snp && l.tee == lo.tee && l.microcode == lo.microcode;
    }
  }

  /** Exactly one core field goes down, by one; none goes below zero, the FMC stays;
      it raises exactly when there is nothing to lower; and the firmware's order and
      the tools' comparison both see the difference. */
  lemma LoweringIsExact(t: TcbVersion, printsNone: bool)
    requires Natural(t)
    ensures Lower(t).None? <==> CoreSum(t) == 0
    ensures Lower(t).Some? ==>
      var lo := Lower(t).value;
      && Natural(lo) && AtMost(lo, t) && CoreSum(lo) == CoreSum(t) - 1 && lo.fmc == t.fmc
      && !FieldsMatch(Show(lo, printsNone), Show(t, printsNone))
  {
    if Lower(t).Some? {
      MatchShown(Lower(t).value, t, printsNone);
    }
  }

  // ── The command line ────────────────────────────────────────────

  /** `_config_set`: the words joined by spaces. */
  function ConfigSet(t: TcbVersion, mask: int): string {
    Join(Command([Decimal(t.bootloader), Decimal(t.tee), Decimal(t.snp), Decimal(t.microcode), Decimal(mask)]
                 + (if t.fmc.Some? then [Decimal(t.fmc.value)] else [])), " ")
  }

  function Command(args: seq<string>): seq<string> {
    ["snphost", "config", "set"] + args
  }

  /** The tool's side: `snphost config set BL TEE SNP UCODE MASK_CHIP [FMC]`. */
  function ParseConfigSet(command: string): Option<TcbVersion> {
    var words := Split(command, ' ');
    if !(8 <= |words| <= 9) || words[..3] != ["snphost", "config", "set"] then None
    else ParseArgs(words[3..])
  }

  function ParseArgs(args: seq<string>): Option<TcbVersion>
    requires 5 <= |args| <= 6
  {
    if exists i | 0 <= i < |args| :: ReadInt(args[i]).None? then None
    else Some(TcbVersion(ReadInt(args[0]).value, ReadInt(args[1]).value, ReadInt(args[2]).value, ReadInt(args[3]).value,
                         if |args| == 6 then ReadInt(args[5]) else None))
  }

  lemma CommandSplits(args: seq<string>)
    requires forall w | w in args :: IsNumeral(w)
    ensures Split(Join(Command(args), " "), ' ') == Command(args)
  {
    assert ' ' !in "snphost" && ' ' !in "config" && ' ' !in "set";
    SplitJoin(Command(args), ' ');
  }

  /** The tool reads the command as the version it was built for. */
  lemma ConfigSetIsUnderstood(t: TcbVersion, mask: nat)
    requires Natural(t)
    ensures ParseConfigSet(ConfigSet(t, mask)) == Some(t)
  {
    hide Decimal, Split, Join;
    ShownReads(t, false);
    DecimalReads(mask);
    var args := [Decimal(t.bootloader), Decimal(t.tee), Decimal(t.snp), Decimal(t.microcode), Decimal(mask)]
                + (if t.fmc.Some? then [Decimal(t.fmc.value)] else []);
    CommandSplits(args);
    assert Command(args)[3..] == args && Command(args)[..3] == ["snphost", "config", "set"];
  }

  /** Its words, in the tool's order. */
  lemma ConfigSetWords(t: TcbVersion, mask: nat)
    requires Natural(t)
    ensures var words := Split(ConfigSet(t, mask), ' ');
      && |words| == (if t.fmc.Some? then 9 else 8)
      && words[0] == "snphost" && words[1] == "config" && words[2] == "set"
      && words[3] == Decimal(t.bootloader) && words[4] == Decimal(t.tee) && words[5] == Decimal(t.snp)
      && words[6] == Decimal(t.microcode) && words[7] == Decimal(mask)
      && (t.fmc.Some? ==> words[8] == Decimal(t.fmc.value))
  {
    hide Decimal, Split, Join;
    ShownReads(t, false);
    DecimalReads(mask);
    CommandSplits([Decimal(t.bootloader), Decimal(t.tee), Decimal(t.snp), Decimal(t.microcode), Decimal(mask)]
                  + (if t.fmc.Some? then [Decimal(t.fmc.value)] else []));
  }
}
