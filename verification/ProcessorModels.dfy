/** The beacon's processor decoding
    (modules/stop/host/beacon-report/.../get_processor_model.py), which works on the
    reversed text of the binary number. */
module ProcessorModels {
  import opened Models
  import opened TcbVersions
  import opened AttestationReports

  // ── Binary text ─────────────────────────────────────────────────

  function Bit(n: nat): char {
    if n % 2 == 1 then '1' else '0'
  }

  /** `bin(n)[2:][::-1]`: the digits, lowest first, without leading zeros. */
  function ReversedBits(n: nat): (s: string)
    ensures |s| > 0
  {
    if n < 2 then [Bit(n)] else [Bit(n)] + ReversedBits(n / 2)
  }

  /** A Python slice stops at the end of the text. */
  function Slice(s: string, lo: nat, hi: nat): string
    requires lo <= hi
  {
    if |s| <= lo then "" else if |s| <= hi then s[lo..] else s[lo..hi]
  }

  function Reverse(s: string): string {
    if s == "" then "" else Reverse(s[1..]) + [s[0]]
  }

  /** `int(s, 2)`, highest digit first; None where it raises, on the empty text. */
  function ParseBinary(s: string): Option<nat> {
    if s == "" then None else Some(Horner(s))
  }

  function Horner(s: string): nat {
    if s == "" then 0 else 2 * Horner(s[..|s| - 1]) + (if s[|s| - 1] == '1' then 1 else 0)
  }

  // ── The decoder ─────────────────────────────────────────────────

  datatype Codename = Naples | Rome | Milan | Genoa | Turin

  /** The result, "invalid cpu", or an exception from `int("", 2)`. */
  datatype Decoded = Known(codename: Codename) | InvalidCpu | Raises

  function Field(eax: nat, lo: nat, hi: nat): string
    requires lo <= hi
  {
    Reverse(Slice(ReversedBits(eax), lo, hi))
  }

  /** The family and model the slices give; None where a conversion raises. */
  function FamilyAndModel(eax: nat): Option<(nat, nat)> {
    var base := ParseBinary(Field(eax, 8, 12));
    var extended := ParseBinary(Field(eax, 20, 28));
    var model := ParseBinary(Field(eax, 16, 20) + Field(eax, 4, 8));
    if base.None? || extended.None? || model.None? then None
    else Some((base.value + extended.value, model.value))
  }

  function Classify(family: nat, model: nat): Decoded {
    if family == 23 && 0 <= model <= 15 then Known(Naples)
    else if family == 23 && 48 <= model <= 63 then Known(Rome)
    else if family == 25 && 0 <= model <= 15 then Known(Milan)
    else if family == 25 && (16 <= model <= 31 || 160 <= model <= 175) then Known(Genoa)
    else if family == 26 && 0 <= model <= 17 then Known(Codename.Turin)
    else InvalidCpu
  }

  function GetProcessorModel(eax: nat): Decoded {
    var fm := FamilyAndModel(eax);
    if fm.None? then Raises else Classify(fm.value.0, fm.value.1)
  }

  // ── Slices are shifts and masks ─────────────────────────────────

  /** `n >> k`, `n & (2^k - 1)` and `n << k`, one bit at a time. */
  function ShiftRight(n: nat, k: nat): nat {
    if k == 0 then n else ShiftRight(n / 2, k - 1)
  }

  function Mask(n: nat, k: nat): nat {
    if k == 0 then 0 else n % 2 + 2 * Mask(n / 2, k - 1)
  }

  function ShiftLeft(n: nat, k: nat): nat {
    if k == 0 then n else 2 * ShiftLeft(n, k - 1)
  }

  lemma ShiftRightBy4(n: nat, k: nat)
    ensures ShiftRight(n, k + 4) == ShiftRight(n / 16, k)
  {
    assert ShiftRight(n, k + 4) == ShiftRight(n / 2, k + 3);
    assert ShiftRight(n / 2, k + 3) == ShiftRight(n / 4, k + 2);
    assert ShiftRight(n / 4, k + 2) == ShiftRight(n / 8, k + 1);
  }

  lemma MaskBy4(n: nat, k: nat)
    ensures Mask(n, k + 4) == n % 16 + 16 * Mask(n / 16, k)
  {
    assert Mask(n, k + 4) == n % 2 + 2 * Mask(n / 2, k + 3);
    assert Mask(n / 2, k + 3) == n / 2 % 2 + 2 * Mask(n / 4, k + 2);
    assert Mask(n / 4, k + 2) == n / 4 % 2 + 2 * Mask(n / 8, k + 1);
    assert Mask(n / 8, k + 1) == n / 8 % 2 + 2 * Mask(n / 16, k);
  }

  /** The value of digits given lowest first. */
  function Value(s: string): nat {
    if s == "" then 0 else (if s[0] == '1' then 1 else 0) + 2 * Value(s[1..])
  }

  lemma {:induction false} HornerOfReverse(s: string)
    ensures Horner(Reverse(s)) == Value(s) && |Reverse(s)| == |s|
  {
    if s != "" {
      HornerOfReverse(s[1..]);
      var r := Reverse(s);
      assert r[..|r| - 1] == Reverse(s[1..]) && r[|r| - 1] == s[0];
    }
  }

  lemma {:induction false} HornerOfJoined(a: string, b: string)
    ensures Horner(a + b) == ShiftLeft(Horner(a), |b|) + Horner(b)
  {
    if b == "" {
      assert a + b == a;
    } else {
      var n := |b| - 1;
      HornerOfJoined(a, b[..n]);
      assert (a + b)[..|a + b| - 1] == a + b[..n];
      assert (a + b)[|a + b| - 1] == b[n];
    }
  }

  /** There are more than k digits when a bit is set at k or above. */
  lemma {:induction false} BitCount(n: nat, k: nat)
    ensures |ReversedBits(n)| > k <==> ShiftRight(n, k) > 0 || k == 0
  {
    if k > 0 {
      if n >= 2 {
        BitCount(n / 2, k - 1);
      } else {
        ShiftOfZero(k - 1);
      }
    }
  }

  lemma {:induction false} ShiftOfZero(k: nat)
    ensures ShiftRight(0, k) == 0
  {
    if k > 0 {
      ShiftOfZero(k - 1);
    }
  }

  lemma {:induction false} DropIsShift(n: nat, k: nat)
    requires |ReversedBits(n)| > k
    ensures ReversedBits(n)[k..] == ReversedBits(ShiftRight(n, k))
  {
    if k > 0 {
      DropIsShift(n / 2, k - 1);
      assert ReversedBits(n)[k..] == ReversedBits(n / 2)[k - 1..];
    }
  }

  lemma {:induction false} TakeIsMask(n: nat, k: nat)
    ensures Value(Slice(ReversedBits(n), 0, k)) == Mask(n, k)
  {
    if k > 0 {
      var s := Slice(ReversedBits(n), 0, k);
      assert s[0] == Bit(n);
      TakeIsMask(n / 2, k - 1);
      if n < 2 {
        MaskOfZero(k - 1);
        assert s[1..] == "";
      } else {
        assert s[1..] == Slice(ReversedBits(n / 2), 0, k - 1);
      }
    }
  }

  lemma {:induction false} MaskOfZero(k: nat)
    ensures Mask(0, k) == 0
  {
    if k > 0 {
      MaskOfZero(k - 1);
    }
  }

  /** A slice of the reversed text, read as a number, is the bits `lo` up to `hi`. */
  lemma FieldIsBits(eax: nat, lo: nat, hi: nat)
    requires lo < hi
    ensures |ReversedBits(eax)| > lo ==> Horner(Field(eax, lo, hi)) == Mask(ShiftRight(eax, lo), hi - lo)
    ensures |Field(eax, lo, hi)| == if |ReversedBits(eax)| <= lo then 0
                                    else if |ReversedBits(eax)| <= hi then |ReversedBits(eax)| - lo else hi - lo
  {
    var s := ReversedBits(eax);
    HornerOfReverse(Slice(s, lo, hi));
    if |s| > lo {
      DropIsShift(eax, lo);
      assert Slice(s, lo, hi) == Slice(s[lo..], 0, hi - lo);
      TakeIsMask(ShiftRight(eax, lo), hi - lo);
    }
  }

  lemma ShiftsAreDivisions(n: nat)
    ensures ShiftRight(n, 4) == n / 0x10 && ShiftRight(n, 8) == n / 0x100
    ensures ShiftRight(n, 16) == n / 0x1_0000 && ShiftRight(n, 20) == n / 0x10_0000
  {
    hide ShiftRight;
    ShiftByNibbles(n);
    ShiftRightBy4(n, 12);
    ShiftRightBy4(n / 0x10, 8);
    ShiftByNibbles(n / 0x100);
    ShiftRightBy4(n, 16);
    ShiftRightBy4(n / 0x10, 12);
    ShiftRightBy4(n / 0x100, 8);
    ShiftByNibbles(n / 0x1000);
  }

  lemma ShiftByNibbles(n: nat)
    ensures ShiftRight(n, 4) == n / 0x10 && ShiftRight(n, 8) == n / 0x100
  {
    assert ShiftRight(n / 0x10, 0) == n / 0x10 && ShiftRight(n / 0x10 / 0x10, 0) == n / 0x100;
    ShiftRightBy4(n, 0);
    ShiftRightBy4(n, 4);
    ShiftRightBy4(n / 0x10, 0);
  }

  lemma MasksAreRemainders(n: nat)
    ensures Mask(n, 4) == n % 0x10 && Mask(n, 8) == n % 0x100
  {
    assert Mask(n, 0) == 0 && Mask(n / 16, 0) == 0 && Mask(n / 16 / 16, 0) == 0;
    MaskOf4(n);
    MaskOf4(n / 16);
    MaskBy4(n, 4);
    TwoNibbles(n);
  }

  lemma TwoNibbles(n: nat)
    ensures n % 0x100 == n % 16 + 16 * (n / 16 % 16)
  {
    var a, b := n / 16, n % 16;
    var c, d := a / 16, a % 16;
    assert n == 256 * c + (16 * d + b);
  }

  lemma MaskOf4(n: nat)
    ensures Mask(n, 4) == n % 16
  {
    MaskBy4(n, 0);
    assert Mask(n / 16, 0) == 0;
  }

  lemma ShiftLeftBy4(n: nat)
    ensures ShiftLeft(n, 4) == n * 0x10
  {
    assert ShiftLeft(n, 1) == 2 * n && ShiftLeft(n, 2) == 4 * n && ShiftLeft(n, 3) == 8 * n;
  }

  /** The usual shifts and masks of CPUID Fn8000_0001 EAX. */
  function FamilyOf(eax: nat): nat {
    eax / 0x100 % 0x10 + eax / 0x10_0000 % 0x100
  }

  function ModelOf(eax: nat): nat {
    eax / 0x1_0000 % 0x10 * 0x10 + eax / 0x10 % 0x10
  }

  /** The text slices compute the usual shifts and masks; and they raise exactly below
      bit 20, where the extended family is an empty slice. */
  lemma DecodingIsShiftAndMask(eax: nat)
    ensures FamilyAndModel(eax) == if eax < 0x10_0000 then None else Some((FamilyOf(eax), ModelOf(eax)))
  {
    hide ReversedBits, Horner, Mask, ShiftRight, ShiftLeft, Field;
    ShiftsAreDivisions(eax);
    BitCount(eax, 20);
    FieldIsBits(eax, 4, 8);
    FieldIsBits(eax, 8, 12);
    FieldIsBits(eax, 16, 20);
    FieldIsBits(eax, 20, 28);
    if eax >= 0x10_0000 {
      MasksAreRemainders(eax / 0x10);
      MasksAreRemainders(eax / 0x100);
      MasksAreRemainders(eax / 0x1_0000);
      MasksAreRemainders(eax / 0x10_0000);
      HornerOfJoined(Field(eax, 16, 20), Field(eax, 4, 8));
      ShiftLeftBy4(Horner(Field(eax, 16, 20)));
    }
  }

  // ── Agreement with the report parser's table ────────────────────

  /** The series the beacon prints for a generation of the report parser. */
  function CodenameOf(g: GenerationName): Codename {
    match g
    case MilanGen => Milan
    case GenoaGen => Genoa
    case BergamoSienaGen => Genoa
    case TurinGen => Codename.Turin
  }

  /** From family 0x19 on the two tables know the same processors and agree on them;
      below it only the beacon's knows any: in family 0x17 Naples, whose extended model is
      0, and Rome, whose is 3. */
  lemma TablesAgree(eax: nat)
    requires eax >= 0x10_0000
    ensures var family, own := FamilyOf(eax), Resolve(FamilyOf(eax), ModelOf(eax));
      && (family >= 0x19 ==>
            GetProcessorModel(eax) == if own.Some? then Known(CodenameOf(own.value.name)) else InvalidCpu)
      && (family < 0x19 ==>
            && own.None? && GetProcessorModel(eax) in {Known(Naples), Known(Rome), InvalidCpu}
            && (GetProcessorModel(eax) == Known(Naples) <==> family == 0x17 && ModelOf(eax) / 0x10 == 0)
            && (GetProcessorModel(eax) == Known(Rome) <==> family == 0x17 && ModelOf(eax) / 0x10 == 3))
  {
    DecodingIsShiftAndMask(eax);
    ResolveByCases(FamilyOf(eax), ModelOf(eax));
  }

  lemma ResolveByCases(family: nat, model: nat)
    ensures Resolve(family, model)
            == if family == 0x19 && model < 0x10 then Some(Generation(MilanGen, Legacy))
               else if family == 0x19 && 0x10 <= model < 0x20 then Some(Generation(GenoaGen, Legacy))
               else if family == 0x19 && 0xA0 <= model < 0xB0 then Some(Generation(BergamoSienaGen, Legacy))
               else if family == 0x1A && model < 0x12 then Some(Generation(TurinGen, Layout.Turin))
               else None
  {
    var t := SUPPORTED_GENERATIONS;
    assert t[1..][1..] == t[2..] && t[2..][1..] == t[3..] && t[3..][1..] == [];
    assert FirstRow(t[3..], family, model)
           == if Covers(t[3], family, model) then Some(t[3].generation) else None;
    assert FirstRow(t[2..], family, model)
           == if Covers(t[2], family, model) then Some(t[2].generation) else FirstRow(t[3..], family, model);
    assert FirstRow(t[1..], family, model)
           == if Covers(t[1], family, model) then Some(t[1].generation) else FirstRow(t[2..], family, model);
  }
}
