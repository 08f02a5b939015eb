/** TCB_VERSION: five components packed into eight bytes, in an order that depends on
    the processor generation (sev_verify/attestation_report.py; the structure is in
    section 7.3 and its use as a key request's bound in section 7.2 of the AMD SEV-SNP
    Firmware ABI Specification, publication 56860). */
module TcbVersions {
  import opened Models

  type byte = x: int | 0 <= x < 256

  datatype Layout = Legacy | Turin

  /** `fmc` exists on Turin only. */
  datatype TcbVersion = TcbVersion(bootloader: int, tee: int, snp: int, microcode: int, fmc: Option<int>)

  function FromBytes(raw: seq<byte>, layout: Layout): TcbVersion
    requires |raw| == 8
  {
    match layout
    case Turin => TcbVersion(raw[1], raw[2], raw[3], raw[7], Some(raw[0]))
    case Legacy => TcbVersion(raw[0], raw[1], raw[6], raw[7], None)
  }

  function Or0(x: Option<int>): int {
    if x.Some? then x.value else 0
  }

  /** `x & 0xFF` is `x % 256`, also for negative x; bytes at different places are
      joined by a sum, which is what the encoder's `|` makes of them (`OrIsSum`). */
  function ToU64(t: TcbVersion, layout: Layout): nat {
    match layout
    case Turin =>
      Or0(t.fmc) % 256
      + t.bootloader % 256 * 0x100
      + t.tee % 256 * 0x1_0000
      + t.snp % 256 * 0x100_0000
      + t.microcode % 256 * 0x100_0000_0000_0000
    case Legacy =>
      t.bootloader % 256
      + t.tee % 256 * 0x100
      + t.snp % 256 * 0x1_0000_0000_0000
      + t.microcode % 256 * 0x100_0000_0000_0000
  }

  /** Bitwise `|` of naturals. */
  function Or(x: nat, y: nat): nat {
    if x == 0 then y
    else if y == 0 then x
    else (if x % 2 == 1 || y % 2 == 1 then 1 else 0) + 2 * Or(x / 2, y / 2)
  }

  function Pow2(k: nat): nat {
    if k == 0 then 1 else 2 * Pow2(k - 1)
  }

  /** `(x & 0xFF) << k`. */
  function ByteAt(x: int, k: nat): nat {
    x % 256 * Pow2(k)
  }

  /** `to_u64` as it is written. */
  function OrEncoded(t: TcbVersion, layout: Layout): nat {
    match layout
    case Turin =>
      Or(Or(Or(Or(ByteAt(Or0(t.fmc), 0), ByteAt(t.bootloader, 8)), ByteAt(t.tee, 16)), ByteAt(t.snp, 24)),
         ByteAt(t.microcode, 56))
    case Legacy =>
      Or(Or(Or(ByteAt(t.bootloader, 0), ByteAt(t.tee, 8)), ByteAt(t.snp, 48)), ByteAt(t.microcode, 56))
  }

  /** Joining values that share no bit is adding them. */
  lemma {:induction false} OrOfApart(x: nat, y: nat, k: nat)
    requires x < Pow2(k)
    ensures Or(x, y * Pow2(k)) == x + y * Pow2(k)
  {
    if k > 0 && x > 0 && y * Pow2(k) > 0 {
      assert y * Pow2(k) == 2 * (y * Pow2(k - 1));
      OrOfApart(x / 2, y, k - 1);
    }
  }

  /** The powers the two layouts use. */
  lemma PlacesOfBytes()
    ensures Pow2(0) == 1 && Pow2(8) == 0x100 && Pow2(16) == 0x1_0000 && Pow2(24) == 0x100_0000
    ensures Pow2(48) == 0x1_0000_0000_0000 && Pow2(56) == 0x100_0000_0000_0000
  {
    Pow2Adds(4, 4);
    Pow2Adds(8, 8);
    Pow2Adds(16, 8);
    Pow2Adds(24, 24);
    Pow2Adds(48, 8);
  }

  lemma {:induction false} Pow2Adds(j: nat, k: nat)
    ensures Pow2(j + k) == Pow2(j) * Pow2(k)
  {
    if k > 0 {
      Pow2Adds(j, k - 1);
    }
  }

  /** For every version, bytes or not, the encoder's shifts and `|` give the sum. */
  lemma OrIsSum(t: TcbVersion, layout: Layout)
    ensures OrEncoded(t, layout) == ToU64(t, layout)
  {
    hide Or, Pow2;
    PlacesOfBytes();
    match layout
    case Turin =>
      var a := Or0(t.fmc) % 256;
      var b := a + t.bootloader % 256 * 0x100;
      var c := b + t.tee % 256 * 0x1_0000;
      var d := c + t.snp % 256 * 0x100_0000;
      OrOfApart(a, t.bootloader % 256, 8);
      OrOfApart(b, t.tee % 256, 16);
      OrOfApart(c, t.snp % 256, 24);
      OrOfApart(d, t.microcode % 256, 56);
    case Legacy =>
      var a := t.bootloader % 256;
      var b := a + t.tee % 256 * 0x100;
      var c := b + t.snp % 256 * 0x1_0000_0000_0000;
      OrOfApart(a, t.tee % 256, 8);
      OrOfApart(b, t.snp % 256, 48);
      OrOfApart(c, t.microcode % 256, 56);
  }

  // ── Eight bytes, least significant first ────────────────────────

  function LeBytes(n: nat, count: nat): (s: seq<byte>)
    ensures |s| == count
  {
    if count == 0 then [] else [n % 256] + LeBytes(n / 256, count - 1)
  }

  function FromLe(s: seq<byte>): nat {
    if s == [] then 0 else s[0] + 256 * FromLe(s[1..])
  }

  function Power256(k: nat): nat {
    if k == 0 then 1 else 256 * Power256(k - 1)
  }

  lemma {:induction false} LeRoundTrip(n: nat, count: nat)
    requires n < Power256(count)
    ensures FromLe(LeBytes(n, count)) == n
  {
    if count > 0 {
      LeRoundTrip(n / 256, count - 1);
      assert LeBytes(n, count)[1..] == LeBytes(n / 256, count - 1);
    }
  }

  lemma {:induction false} LeRoundTripBack(s: seq<byte>)
    ensures LeBytes(FromLe(s), |s|) == s
    ensures FromLe(s) < Power256(|s|)
  {
    if s != [] {
      LeRoundTripBack(s[1..]);
      assert s == [s[0]] + s[1..];
    }
  }

  // ── Round trips ─────────────────────────────────────────────────

  predicate ByteSized(t: TcbVersion) {
    && 0 <= t.bootloader < 256 && 0 <= t.tee < 256 && 0 <= t.snp < 256 && 0 <= t.microcode < 256
    && 0 <= Or0(t.fmc) < 256
  }

  /** The version as the layout can hold it: Turin has an FMC, legacy has none. */
  function Held(t: TcbVersion, layout: Layout): TcbVersion {
    t.(fmc := if layout.Turin? then Some(Or0(t.fmc)) else None)
  }

  /** The bytes of the layout, each in its place, and zeros in the reserved ones. */
  function Packed(t: TcbVersion, layout: Layout): seq<byte>
    requires ByteSized(t)
  {
    match layout
    case Turin => [Or0(t.fmc), t.bootloader, t.tee, t.snp, 0, 0, 0, t.microcode]
    case Legacy => [t.bootloader, t.tee, 0, 0, 0, 0, t.snp, t.microcode]
  }

  /** The reserved bytes of a layout set to zero. */
  function ClearReserved(raw: seq<byte>, layout: Layout): seq<byte>
    requires |raw| == 8
  {
    match layout
    case Turin => [raw[0], raw[1], raw[2], raw[3], 0, 0, 0, raw[7]]
    case Legacy => [raw[0], raw[1], 0, 0, 0, 0, raw[6], raw[7]]
  }

  lemma FromLe8(s: seq<byte>)
    requires |s| == 8
    ensures FromLe(s) == s[0] as int + s[1] as int * 0x100 + s[2] as int * 0x1_0000 + s[3] as int * 0x100_0000
                         + s[4] as int * 0x1_0000_0000 + s[5] as int * 0x100_0000_0000
                         + s[6] as int * 0x1_0000_0000_0000 + s[7] as int * 0x100_0000_0000_0000
  {
    assert FromLe(s[7..]) == s[7];
    assert FromLe(s[6..]) == s[6] + 256 * FromLe(s[7..]) by { assert s[6..][1..] == s[7..]; }
    assert FromLe(s[5..]) == s[5] + 256 * FromLe(s[6..]) by { assert s[5..][1..] == s[6..]; }
    assert FromLe(s[4..]) == s[4] + 256 * FromLe(s[5..]) by { assert s[4..][1..] == s[5..]; }
    assert FromLe(s[3..]) == s[3] + 256 * FromLe(s[4..]) by { assert s[3..][1..] == s[4..]; }
    assert FromLe(s[2..]) == s[2] + 256 * FromLe(s[3..]) by { assert s[2..][1..] == s[3..]; }
    assert FromLe(s[1..]) == s[1] + 256 * FromLe(s[2..]) by { assert s[1..][1..] == s[2..]; }
  }

  /** On bytes, masking does nothing. */
  lemma EncodingIsWeighing(t: TcbVersion, layout: Layout)
    requires ByteSized(t)
    ensures ToU64(t, layout) == match layout
      case Turin => Or0(t.fmc) + t.bootloader * 0x100 + t.tee * 0x1_0000 + t.snp * 0x100_0000
                    + t.microcode * 0x100_0000_0000_0000
      case Legacy => t.bootloader + t.tee * 0x100 + t.snp * 0x1_0000_0000_0000 + t.microcode * 0x100_0000_0000_0000
  {
    SmallMod(t.bootloader);
    SmallMod(t.tee);
    SmallMod(t.snp);
    SmallMod(t.microcode);
    SmallMod(Or0(t.fmc));
  }

  lemma SmallMod(x: int)
    requires 0 <= x < 256
    ensures x % 256 == x
  {
  }

  lemma EncodingIsPacking(t: TcbVersion, layout: Layout)
    requires ByteSized(t)
    ensures ToU64(t, layout) == FromLe(Packed(t, layout))
  {
    EncodingIsWeighing(t, layout);
    FromLe8(Packed(t, layout));
  }

  /** Decoding the bytes of an encoded version gives the version back. */
  lemma DecodeEncoded(t: TcbVersion, layout: Layout)
    requires ByteSized(t)
    ensures FromBytes(LeBytes(ToU64(t, layout), 8), layout) == Held(t, layout)
  {
    EncodingIsPacking(t, layout);
    LeRoundTripBack(Packed(t, layout));
  }

  /** Encoding a decoded value gives the value with its reserved bytes cleared, so
      nothing is lost exactly when they were zero. */
  lemma EncodeDecoded(raw: seq<byte>, layout: Layout)
    requires |raw| == 8
    ensures LeBytes(ToU64(FromBytes(raw, layout), layout), 8) == ClearReserved(raw, layout)
    ensures ToU64(FromBytes(raw, layout), layout) == FromLe(raw) <==> raw == ClearReserved(raw, layout)
  {
    var t := FromBytes(raw, layout);
    EncodingIsPacking(t, layout);
    assert Packed(t, layout) == ClearReserved(raw, layout);
    LeRoundTripBack(ClearReserved(raw, layout));
    LeRoundTripBack(raw);
  }

  // ── Order ───────────────────────────────────────────────────────

  /** The order of TCB versions: every component at most the other's. */
  predicate AtMost(t: TcbVersion, u: TcbVersion) {
    && t.bootloader <= u.bootloader && t.tee <= u.tee && t.snp <= u.snp && t.microcode <= u.microcode
    && Or0(t.fmc) <= Or0(u.fmc)
  }

  lemma EncodingFits(t: TcbVersion, layout: Layout)
    ensures ToU64(t, layout) < 0x1_0000_0000_0000_0000
  {
  }

  /** The packed form respects the order. */
  lemma EncodingIsMonotone(t: TcbVersion, u: TcbVersion, layout: Layout)
    requires ByteSized(t) && ByteSized(u) && AtMost(t, u)
    ensures ToU64(t, layout) <= ToU64(u, layout)
  {
    EncodingIsWeighing(t, layout);
    EncodingIsWeighing(u, layout);
  }

  /** It tells the versions of a layout apart. */
  lemma EncodingIsInjective(t: TcbVersion, u: TcbVersion, layout: Layout)
    requires ByteSized(t) && ByteSized(u)
    ensures ToU64(t, layout) == ToU64(u, layout) <==> Held(t, layout) == Held(u, layout)
  {
    if ToU64(t, layout) == ToU64(u, layout) {
      DecodeEncoded(t, layout);
      DecodeEncoded(u, layout);
    }
  }

  /** The packed form alone does not carry the order: a larger integer may be a
      version that is lower in some component. */
  lemma PackedOrderIsCoarser(layout: Layout)
    ensures exists t, u :: ByteSized(t) && ByteSized(u)
                           && ToU64(t, layout) < ToU64(u, layout) && !AtMost(t, u) && !AtMost(u, t)
  {
    var t, u := TcbVersion(1, 0, 0, 0, None), TcbVersion(0, 1, 0, 0, None);
    assert ToU64(t, layout) < ToU64(u, layout);
  }
}
