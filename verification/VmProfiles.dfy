/** How a guest is started: the launch profile and the QEMU command line it
    becomes (sev_verify/vm_profile.py). */
module VmProfiles {
  import opened Models
  import opened Texts

  /** A policy is given as an integer or as text. */
  datatype Policy = PolicyBits(bits: nat) | PolicyText(text: string)

  datatype VMProfile = VMProfile(
    imagePath: string,
    guestId: Option<string>,
    qemuBinary: string,
    ovmfPath: Option<string>,
    memoryMb: int,
    guestErrorLog: string,
    guestBootLog: string,
    networkEnabled: bool,
    vsockCid: int,
    vsockUseVhost: bool,
    hostData: Option<string>,
    policy: Option<Policy>,
    authKeyEnabled: bool,
    kernelHashes: bool,
    idBlock: Option<string>,
    idAuth: Option<string>,
    cbitpos: int,
    reducedPhysBits: int,
    debug: bool)

  /** What `VMProfile.vm_launch` did.  `Refused` is a VMProfileError, raised with no
      live process.  `LaunchEscapes` is any other exception; it may come after QEMU
      was started, and then nobody holds the process. */
  datatype LaunchOutcome =
    | Started(ok: bool, message: string)
    | Refused(error: string)
    | LaunchEscapes(processLeft: bool)

  /** What `stop_vm` did: the process is gone, an OSError was raised, or the wait
      after the kill timed out. */
  datatype StopOutcome = Stopped | StopRefused(error: string) | StopEscapes

  /** VMLaunchResult; `handle` stands for the QEMU process object. */
  datatype Launch = Launch(handle: nat, profile: VMProfile, ok: bool, message: string, guestId: string)

  /** Python truth of an optional string: present and not empty. */
  predicate Truthy(s: Option<string>) {
    s.Some? && s.value != ""
  }

  /** The two profiles differ at most in the fields that debug mode rewrites. */
  predicate SameGuest(p: VMProfile, q: VMProfile) {
    p.(guestId := q.guestId, guestErrorLog := q.guestErrorLog,
       guestBootLog := q.guestBootLog, debug := q.debug) == q
  }

  // ── The QEMU command line ───────────────────────────────────────

  function FormatPolicy(p: Policy): string {
    match p
    case PolicyBits(n) => Hex(n)
    case PolicyText(raw) =>
      var text := Strip(raw);
      if "0x" <= text || "0X" <= text then text
      else if text != "" && IsNumeral(text) then Hex(ParseDigits(text))
      else text
  }

  function FixedParts(p: VMProfile): seq<string> {
    [ "sev-snp-guest", "id=sev0",
      "cbitpos=" + Decimal(p.cbitpos),
      "reduced-phys-bits=" + Decimal(p.reducedPhysBits) ]
    + (if p.kernelHashes then ["kernel-hashes=on"] else [])
    + (if Truthy(p.hostData) then ["host-data=\"" + p.hostData.value + "\""] else [])
  }

  function PolicyParts(p: VMProfile): seq<string> {
    (if p.policy.Some? then ["policy=" + FormatPolicy(p.policy.value)] else [])
    + (if p.authKeyEnabled then ["author-key-enabled=true"] else [])
  }

  function IdBlockParts(p: VMProfile): seq<string> {
    if Truthy(p.idBlock) && Truthy(p.idAuth)
    then ["id-block=" + p.idBlock.value, "id-auth=" + p.idAuth.value] else []
  }

  /** The comma-separated properties of the sev-snp-guest object. */
  function SevGuestParts(p: VMProfile): seq<string> {
    FixedParts(p) + PolicyParts(p) + IdBlockParts(p)
  }

  function SerialArgs(p: VMProfile): seq<string> {
    if p.debug
    then ["-chardev", "file,id=serial0,path=" + p.guestBootLog, "-serial", "chardev:serial0"]
    else []
  }

  function BootArgs(p: VMProfile, ovmf: string): seq<string> {
    [ p.qemuBinary, "-enable-kvm",
      "-machine", "q35,memory-encryption=sev0,memory-backend=ram1",
      "-cpu", "EPYC-v4", "-monitor", "none", "-display", "none",
      "-object", "memory-backend-memfd,id=ram1,size=" + Decimal(p.memoryMb) + "M",
      "-object", Join(SevGuestParts(p), ","),
      "-bios", ovmf, "-kernel", p.imagePath,
      "-device", (if p.vsockUseVhost then "vhost-vsock-pci" else "virtio-vsock-pci")
                 + ",guest-cid=" + Decimal(p.vsockCid) + ",id=vsock0" ]
  }

  function NetworkArgs(p: VMProfile): seq<string> {
    if p.networkEnabled
    then ["-netdev", "user,id=net0", "-device", "virtio-net-pci,netdev=net0"] else []
  }

  function QemuCommand(p: VMProfile, ovmf: string): seq<string> {
    BootArgs(p, ovmf) + SerialArgs(p) + NetworkArgs(p)
  }

  /** The object names an ID block exactly when the profile has both halves, and
      then names the profile's own; the policy likewise. */
  lemma SevGuestPartsCarry(p: VMProfile, text: string)
    ensures "id-block=" + text in SevGuestParts(p)
            <==> Truthy(p.idBlock) && Truthy(p.idAuth) && text == p.idBlock.value
    ensures "id-auth=" + text in SevGuestParts(p)
            <==> Truthy(p.idBlock) && Truthy(p.idAuth) && text == p.idAuth.value
    ensures "policy=" + text in SevGuestParts(p)
            <==> p.policy.Some? && text == FormatPolicy(p.policy.value)
  {
    FixedPartsAreOther(p, text);
    PolicyPartsCarry(p, text);
    IdBlockPartsCarry(p, text);
  }

  /** The fixed parts show by their first or third letter that they are no others. */
  predicate FixedLook(part: string) {
    |part| > 2 && (part[0] in "sckrh" || (part[0] == 'i' && part[2] == '='))
  }

  lemma FixedPartsAreOther(p: VMProfile, text: string)
    ensures "id-block=" + text !in FixedParts(p)
    ensures "id-auth=" + text !in FixedParts(p)
    ensures "policy=" + text !in FixedParts(p)
  {
    hide Decimal, Truthy;
    forall part | part in FixedParts(p) ensures FixedLook(part) {
    }
    assert ("id-block=" + text)[2] == '-' == ("id-auth=" + text)[2];
    assert ("policy=" + text)[0] == 'p';
  }

  lemma PolicyPartsCarry(p: VMProfile, text: string)
    ensures "id-block=" + text !in PolicyParts(p)
    ensures "id-auth=" + text !in PolicyParts(p)
    ensures "policy=" + text in PolicyParts(p)
            <==> p.policy.Some? && text == FormatPolicy(p.policy.value)
  {
    assert forall part | part in PolicyParts(p) :: part[0] == 'p' || part[0] == 'a';
    assert ("id-block=" + text)[0] == 'i' == ("id-auth=" + text)[0];
    assert ("policy=" + text)[7..] == text;
    assert ("policy=" + text)[0] == 'p';
    if p.policy.Some? {
      assert ("policy=" + FormatPolicy(p.policy.value))[7..] == FormatPolicy(p.policy.value);
    }
  }

  lemma IdBlockPartsCarry(p: VMProfile, text: string)
    ensures "id-block=" + text in IdBlockParts(p)
            <==> Truthy(p.idBlock) && Truthy(p.idAuth) && text == p.idBlock.value
    ensures "id-auth=" + text in IdBlockParts(p)
            <==> Truthy(p.idBlock) && Truthy(p.idAuth) && text == p.idAuth.value
    ensures "policy=" + text !in IdBlockParts(p)
  {
    assert ("policy=" + text)[0] == 'p';
    assert ("id-block=" + text)[9..] == text && ("id-block=" + text)[3] == 'b';
    assert ("id-auth=" + text)[8..] == text && ("id-auth=" + text)[3] == 'a';
    if Truthy(p.idBlock) && Truthy(p.idAuth) {
      var block, auth := "id-block=" + p.idBlock.value, "id-auth=" + p.idAuth.value;
      assert IdBlockParts(p) == [block, auth];
      assert block[0] == 'i' == auth[0];
      assert block[9..] == p.idBlock.value && block[3] == 'b';
      assert auth[8..] == p.idAuth.value && auth[3] == 'a';
    }
  }

  /** And the other properties: the two numbers and the host data are the profile's own,
      the two switches are there exactly when they are set. */
  lemma SevGuestPartsSwitch(p: VMProfile, text: string)
    ensures SevGuestParts(p)[0] == "sev-snp-guest" && SevGuestParts(p)[1] == "id=sev0"
    ensures "cbitpos=" + text in SevGuestParts(p) <==> text == Decimal(p.cbitpos)
    ensures "reduced-phys-bits=" + text in SevGuestParts(p) <==> text == Decimal(p.reducedPhysBits)
    ensures "kernel-hashes=on" in SevGuestParts(p) <==> p.kernelHashes
    ensures "host-data=\"" + text + "\"" in SevGuestParts(p) <==> Truthy(p.hostData) && text == p.hostData.value
    ensures "author-key-enabled=true" in SevGuestParts(p) <==> p.authKeyEnabled
  {
    hide FixedParts, PolicyParts, IdBlockParts, Decimal, Truthy;
    FixedPartsCarry(p, text);
    PolicyPartsSwitch(p);
    PartsLook(p);
    var f, o, i := FixedParts(p), PolicyParts(p), IdBlockParts(p);
    OnlyThere(f, o, i, "cbitpos=" + text);
    OnlyThere(f, o, i, "reduced-phys-bits=" + text);
    OnlyThere(f, o, i, "kernel-hashes=on");
    OnlyThere(f, o, i, "host-data=\"" + text + "\"");
    OnlyThere(f, o, i, "author-key-enabled=true");
  }

  predicate StartIn(parts: seq<string>, letters: string) {
    forall part | part in parts :: part != "" && part[0] in letters
  }

  lemma OnlyThere(f: seq<string>, o: seq<string>, i: seq<string>, part: string)
    requires part != "" && StartIn(f, "sickrh") && StartIn(o, "pa") && StartIn(i, "i")
    ensures part[0] in "ckrh" ==> (part in f + o + i <==> part in f)
    ensures part[0] == 'a' ==> (part in f + o + i <==> part in o)
  {
  }

  lemma PartsLook(p: VMProfile)
    ensures |FixedParts(p)| > 2 && FixedParts(p)[0] == "sev-snp-guest" && FixedParts(p)[1] == "id=sev0"
    ensures StartIn(FixedParts(p), "sickrh") && StartIn(PolicyParts(p), "pa") && StartIn(IdBlockParts(p), "i")
  {
    hide Decimal, Truthy, FormatPolicy;
  }

  lemma PolicyPartsSwitch(p: VMProfile)
    ensures "author-key-enabled=true" in PolicyParts(p) <==> p.authKeyEnabled
  {
    hide FormatPolicy;
    assert "author-key-enabled=true"[0] == 'a';
    assert p.policy.Some? ==> ("policy=" + FormatPolicy(p.policy.value))[0] == 'p';
  }

  lemma FixedPartsCarry(p: VMProfile, text: string)
    ensures "cbitpos=" + text in FixedParts(p) <==> text == Decimal(p.cbitpos)
    ensures "reduced-phys-bits=" + text in FixedParts(p) <==> text == Decimal(p.reducedPhysBits)
    ensures "kernel-hashes=on" in FixedParts(p) <==> p.kernelHashes
    ensures "host-data=\"" + text + "\"" in FixedParts(p) <==> Truthy(p.hostData) && text == p.hostData.value
  {
    hide Decimal;
    var c, r, h := "cbitpos=" + text, "reduced-phys-bits=" + text, "host-data=\"" + text + "\"";
    assert c[0] == 'c' && r[0] == 'r' && h[0] == 'h' && "kernel-hashes=on"[0] == 'k';
    assert c[8..] == text && r[18..] == text && h[11..|h| - 1] == text;
    var c', r' := "cbitpos=" + Decimal(p.cbitpos), "reduced-phys-bits=" + Decimal(p.reducedPhysBits);
    assert c'[0] == 'c' && r'[0] == 'r' && c'[8..] == Decimal(p.cbitpos) && r'[18..] == Decimal(p.reducedPhysBits);
    assert "sev-snp-guest"[0] == 's' && "id=sev0"[0] == 'i';
    if Truthy(p.hostData) {
      var h' := "host-data=\"" + p.hostData.value + "\"";
      assert h'[0] == 'h' && h'[11..|h'| - 1] == p.hostData.value;
    }
  }

  /** Text that reads as this number in hexadecimal. */
  predicate ReadsAs(text: string, n: nat) {
    && |text| >= 2 && text[..2] == "0x" && IsHexNumeral(text[2..]) && ParseHex(text[2..]) == n
  }

  /** A policy keeps its value: an integer, or a decimal numeral, reads back as itself; any
      other text is given as it is, but for the blanks around it. */
  lemma PolicyKeepsValue(policy: Policy)
    ensures policy.PolicyBits? ==> ReadsAs(FormatPolicy(policy), policy.bits)
    ensures policy.PolicyText? ==>
      var text := Strip(policy.text);
      if text != "" && IsNumeral(text) then ReadsAs(FormatPolicy(policy), ParseDigits(text))
      else FormatPolicy(policy) == text
  {
    hide Digits, Strip, ParseHex, IsHexNumeral, ParseDigits;
    match policy
    case PolicyBits(n) => HexRoundTrip(n);
    case PolicyText(raw) =>
      var text := Strip(raw);
      if text != "" && IsNumeral(text) {
        assert !("0x" <= text) && !("0X" <= text) by {
          assert |text| >= 2 ==> '0' <= text[1] <= '9';
        }
        HexRoundTrip(ParseDigits(text));
      }
  }

  lemma SameGuestSameObject(p: VMProfile, q: VMProfile)
    requires SameGuest(p, q)
    ensures SevGuestParts(p) == SevGuestParts(q)
  {
  }

  /** Two launches of the same guest run the same QEMU command, apart from the serial
      log: four arguments under debug, none otherwise. */
  lemma SameGuestSameCommand(p: VMProfile, q: VMProfile, ovmf: string)
    requires SameGuest(p, q)
    ensures exists head, tail ::
      && QemuCommand(p, ovmf) == head + SerialArgs(p) + tail
      && QemuCommand(q, ovmf) == head + SerialArgs(q) + tail
      && |SerialArgs(p)| == (if p.debug then 4 else 0)
      && |SerialArgs(q)| == (if q.debug then 4 else 0)
  {
    SameGuestSameObject(p, q);
    assert BootArgs(p, ovmf) == BootArgs(q, ovmf);
    assert QemuCommand(q, ovmf) == BootArgs(q, ovmf) + SerialArgs(q) + NetworkArgs(q);
    assert QemuCommand(p, ovmf) == BootArgs(q, ovmf) + SerialArgs(p) + NetworkArgs(q);
  }

  // ── What QEMU reads ─────────────────────────────────────────────

  /** Arguments read as options with a value each. */
  function Options(args: seq<string>): seq<(string, string)> {
    if |args| < 2 then [] else [(args[0], args[1])] + Options(args[2..])
  }

  lemma OptionsOf(flag: string, value: string, rest: seq<string>)
    ensures Options([flag, value] + rest) == [(flag, value)] + Options(rest)
  {
    assert ([flag, value] + rest)[2..] == rest;
  }

  /** Options given one after the other. */
  function Spelled(options: seq<(string, string)>): seq<string> {
    if options == [] then [] else [options[0].0, options[0].1] + Spelled(options[1..])
  }

  lemma {:induction false} OptionsSpelled(options: seq<(string, string)>, rest: seq<string>)
    ensures Options(Spelled(options) + rest) == options + Options(rest)
  {
    if options != [] {
      var flag, value := options[0].0, options[0].1;
      OptionsSpelled(options[1..], rest);
      OptionsOf(flag, value, Spelled(options[1..]) + rest);
      assert Spelled(options) + rest == [flag, value] + (Spelled(options[1..]) + rest);
      assert options == [options[0]] + options[1..];
    } else {
      assert Spelled(options) + rest == rest;
    }
  }

  lemma {:induction false} SpelledJoin(a: seq<(string, string)>, b: seq<(string, string)>)
    ensures Spelled(a + b) == Spelled(a) + Spelled(b)
  {
    if a == [] {
      assert a + b == b;
    } else {
      SpelledJoin(a[1..], b);
      assert (a + b)[1..] == a[1..] + b && (a + b)[0] == a[0];
      assert Spelled(a + b) == [a[0].0, a[0].1] + (Spelled(a[1..]) + Spelled(b));
    }
  }

  const MACHINE_OPTIONS: seq<(string, string)> :=
    [ ("-machine", "q35,memory-encryption=sev0,memory-backend=ram1"), ("-cpu", "EPYC-v4"),
      ("-monitor", "none"), ("-display", "none") ]

  function GuestOptions(p: VMProfile, ovmf: string): seq<(string, string)> {
    [ ("-object", "memory-backend-memfd,id=ram1,size=" + Decimal(p.memoryMb) + "M"),
      ("-object", Join(SevGuestParts(p), ",")), ("-bios", ovmf), ("-kernel", p.imagePath),
      ("-device", (if p.vsockUseVhost then "vhost-vsock-pci" else "virtio-vsock-pci")
                  + ",guest-cid=" + Decimal(p.vsockCid) + ",id=vsock0") ]
  }

  function BootOptions(p: VMProfile, ovmf: string): seq<(string, string)> {
    MACHINE_OPTIONS + GuestOptions(p, ovmf)
  }

  function SerialOptions(p: VMProfile): seq<(string, string)> {
    if p.debug
    then [("-chardev", "file,id=serial0,path=" + p.guestBootLog), ("-serial", "chardev:serial0")] else []
  }

  function NetworkOptions(p: VMProfile): seq<(string, string)> {
    if p.networkEnabled
    then [("-netdev", "user,id=net0"), ("-device", "virtio-net-pci,netdev=net0")] else []
  }

  lemma SpelledAt(o: seq<(string, string)>, i: nat)
    requires i < |o|
    ensures Spelled(o[i..]) == [o[i].0, o[i].1] + Spelled(o[i + 1..])
  {
    assert o[i..][1..] == o[i + 1..];
  }

  lemma MachineSpelled()
    ensures Spelled(MACHINE_OPTIONS)
            == ["-machine", "q35,memory-encryption=sev0,memory-backend=ram1", "-cpu", "EPYC-v4",
                "-monitor", "none", "-display", "none"]
  {
    hide Spelled;
    var o := MACHINE_OPTIONS;
    SpelledAt(o, 0);
    SpelledAt(o, 1);
    SpelledAt(o, 2);
    SpelledAt(o, 3);
    NothingSpelled();
    assert o[0..] == o && o[4..] == [];
  }

  lemma NothingSpelled()
    ensures Spelled([]) == []
  {
  }

  lemma GuestSpelled(o: seq<(string, string)>)
    requires |o| == 5
    ensures Spelled(o) == [o[0].0, o[0].1, o[1].0, o[1].1, o[2].0, o[2].1, o[3].0, o[3].1, o[4].0, o[4].1]
  {
    hide Spelled;
    SpelledAt(o, 0);
    SpelledAt(o, 1);
    SpelledAt(o, 2);
    SpelledAt(o, 3);
    SpelledAt(o, 4);
    NothingSpelled();
    assert o[0..] == o && o[5..] == [];
  }

  lemma BootSpelled(p: VMProfile, ovmf: string)
    ensures BootArgs(p, ovmf) == [p.qemuBinary, "-enable-kvm"] + Spelled(BootOptions(p, ovmf))
  {
    hide Decimal, Join, SevGuestParts, Spelled;
    MachineSpelled();
    GuestSpelled(GuestOptions(p, ovmf));
    SpelledJoin(MACHINE_OPTIONS, GuestOptions(p, ovmf));
  }

  lemma RestSpelled(p: VMProfile)
    ensures SerialArgs(p) == Spelled(SerialOptions(p)) && NetworkArgs(p) == Spelled(NetworkOptions(p))
  {
    var s, n := SerialOptions(p), NetworkOptions(p);
    assert p.debug ==> Spelled(s[1..]) == [s[1].0, s[1].1];
    assert p.networkEnabled ==> Spelled(n[1..]) == [n[1].0, n[1].1];
  }

  /** The command as QEMU reads it: the program, one switch, then options with a value
      each, in this order. */
  lemma QemuReads(p: VMProfile, ovmf: string)
    ensures var command := QemuCommand(p, ovmf);
      && |command| > 2 && command[0] == p.qemuBinary && command[1] == "-enable-kvm"
      && Options(command[2..]) == BootOptions(p, ovmf) + SerialOptions(p) + NetworkOptions(p)
  {
    hide BootOptions, SerialOptions, NetworkOptions, BootArgs, SerialArgs, NetworkArgs, Spelled, Options;
    var b, s, n := BootOptions(p, ovmf), SerialOptions(p), NetworkOptions(p);
    BootSpelled(p, ovmf);
    RestSpelled(p);
    NotEmpty(p, ovmf);
    SpelledJoin(b, s);
    SpelledJoin(b + s, n);
    OptionsSpelled(b + s + n, []);
    NoOptions();
    assert QemuCommand(p, ovmf)[2..] == Spelled(b + s + n) + [];
  }

  lemma NoOptions()
    ensures Options([]) == []
  {
  }

  lemma NotEmpty(p: VMProfile, ovmf: string)
    ensures |BootArgs(p, ovmf)| > 2
  {
  }

  /** The guest's vsock device. */
  predicate IsVsock(p: VMProfile, value: string) {
    value == (if p.vsockUseVhost then "vhost-vsock-pci" else "virtio-vsock-pci")
             + ",guest-cid=" + Decimal(p.vsockCid) + ",id=vsock0"
  }

  predicate IsMemory(p: VMProfile, value: string) {
    value == "memory-backend-memfd,id=ram1,size=" + Decimal(p.memoryMb) + "M"
  }

  lemma MachineGives(value: string)
    ensures var options := MACHINE_OPTIONS;
      && ("-bios", value) !in options && ("-kernel", value) !in options && ("-object", value) !in options
      && ("-device", value) !in options && ("-chardev", value) !in options && ("-netdev", value) !in options
  {
  }

  lemma GuestGives(p: VMProfile, ovmf: string, value: string)
    ensures var options := GuestOptions(p, ovmf);
      && (("-bios", value) in options <==> value == ovmf)
      && (("-kernel", value) in options <==> value == p.imagePath)
      && (("-object", value) in options <==> value == Join(SevGuestParts(p), ",") || IsMemory(p, value))
      && (("-device", value) in options <==> IsVsock(p, value))
      && ("-chardev", value) !in options && ("-netdev", value) !in options
  {
    hide Decimal, Join, SevGuestParts;
    FlagsDiffer();
  }

  lemma FlagsDiffer()
    ensures "-bios" !in ["-object", "-kernel", "-device"] && "-kernel" !in ["-object", "-bios", "-device"]
    ensures "-object" !in ["-bios", "-kernel", "-device"] && "-device" !in ["-object", "-bios", "-kernel"]
  {
  }

  lemma RestGives(p: VMProfile, value: string)
    ensures var options := SerialOptions(p) + NetworkOptions(p);
      && ("-bios", value) !in options && ("-kernel", value) !in options && ("-object", value) !in options
      && (("-device", value) in options <==> p.networkEnabled && value == "virtio-net-pci,netdev=net0")
      && (("-chardev", value) in options <==> p.debug && value == "file,id=serial0,path=" + p.guestBootLog)
      && (("-netdev", value) in options <==> p.networkEnabled && value == "user,id=net0")
  {
  }

  /** So what is given for each option: each value is the profile's own. */
  lemma QemuIsGiven(p: VMProfile, ovmf: string, value: string)
    ensures var options := Options(QemuCommand(p, ovmf)[2..]);
      && (("-bios", value) in options <==> value == ovmf)
      && (("-kernel", value) in options <==> value == p.imagePath)
      && (("-object", value) in options <==> value == Join(SevGuestParts(p), ",") || IsMemory(p, value))
      && (("-device", value) in options
          <==> IsVsock(p, value) || (p.networkEnabled && value == "virtio-net-pci,netdev=net0"))
      && (("-chardev", value) in options <==> p.debug && value == "file,id=serial0,path=" + p.guestBootLog)
      && (("-netdev", value) in options <==> p.networkEnabled && value == "user,id=net0")
  {
    hide Join, SevGuestParts, QemuCommand, Options, IsVsock, IsMemory, GuestOptions, SerialOptions,
         NetworkOptions;
    QemuReads(p, ovmf);
    MachineGives(value);
    GuestGives(p, ovmf, value);
    RestGives(p, value);
    var guest, rest := GuestOptions(p, ovmf), SerialOptions(p) + NetworkOptions(p);
    assert Options(QemuCommand(p, ovmf)[2..]) == MACHINE_OPTIONS + guest + rest;
  }
}
