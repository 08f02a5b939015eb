/** The negative cases of the ID block test: what was launched, and what a pass means
    (sev_verify/cert_tests/c3_0/c3_0_0_1/id_block_test.py). */
module Rejections {
  import opened Models
  import opened VmProfiles
  import opened Runner
  import opened Executor
  import ShippedPlans
  import Verdicts

  // ── The faults ──────────────────────────────────────────────────

  datatype Fault = BadMeasurement | NoSmt | AbiMajor255

  /** What an ID block is made from: the measurement in hexadecimal and the policy. */
  datatype Input = Input(measurement: string, policy: nat)

  /** Another first byte. */
  function Flipped(measurement: string): string
    requires |measurement| >= 2
  {
    (if measurement[..2] == "00" then "ff" else "00") + measurement[2..]
  }

  /** `policy & ~(1 << 16)`. */
  function WithoutSmt(policy: nat): nat {
    policy - policy / 0x1_0000 % 2 * 0x1_0000
  }

  /** `(policy & ~0xFF00) | (0xFF << 8)`. */
  function WithAbiMajor255(policy: nat): nat {
    policy - policy / 0x100 % 0x100 * 0x100 + 0xFF * 0x100
  }

  function Faulty(fault: Fault, i: Input): Input
    requires |i.measurement| == 96
  {
    match fault
    case BadMeasurement => i.(measurement := Flipped(i.measurement))
    case NoSmt => i.(policy := WithoutSmt(i.policy))
    case AbiMajor255 => i.(policy := WithAbiMajor255(i.policy))
  }

  /** The fields of a policy that the faults touch, and the rest. */
  function SmtBit(policy: nat): nat { policy / 0x1_0000 % 2 }

  function AbiMajor(policy: nat): nat { policy / 0x100 % 0x100 }

  predicate SameButSmt(p: nat, q: nat) {
    p % 0x1_0000 == q % 0x1_0000 && p / 0x2_0000 == q / 0x2_0000
  }

  predicate SameButAbiMajor(p: nat, q: nat) {
    p % 0x100 == q % 0x100 && p / 0x1_0000 == q / 0x1_0000
  }

  /** Each case has one fault.  The measurement differs in its first byte alone; the
      policy differs in the SMT bit alone, and only if that was set; or in the ABI
      version alone, and only if that was not 255. */
  lemma OneFault(i: Input)
    requires |i.measurement| == 96
    ensures var j := Faulty(BadMeasurement, i);
      && j.policy == i.policy && |j.measurement| == 96
      && j.measurement[..2] != i.measurement[..2] && j.measurement[2..] == i.measurement[2..]
    ensures var j := Faulty(NoSmt, i);
      && j.measurement == i.measurement && SmtBit(j.policy) == 0 && SameButSmt(j.policy, i.policy)
      && (j == i <==> SmtBit(i.policy) == 0)
    ensures var j := Faulty(AbiMajor255, i);
      && j.measurement == i.measurement && AbiMajor(j.policy) == 255 && SameButAbiMajor(j.policy, i.policy)
      && (j == i <==> AbiMajor(i.policy) == 255)
  {
    var m := i.measurement;
    hide WithoutSmt, WithAbiMajor255, SmtBit, AbiMajor;
    assert Flipped(m)[..2] == if m[..2] == "00" then "ff" else "00";
    assert Flipped(m)[2..] == m[2..];
    SmtIsCleared(i.policy);
    AbiMajorIsSet(i.policy);
  }

  lemma SmtIsCleared(p: nat)
    ensures var q := WithoutSmt(p); SmtBit(q) == 0 && SameButSmt(q, p) && (q == p <==> SmtBit(p) == 0)
  {
    var low, bit, high := p % 0x1_0000, p / 0x1_0000 % 2, p / 0x1_0000 / 2;
    assert p == high * 0x2_0000 + bit * 0x1_0000 + low;
    SmtParts(p, high, bit, low);
    SmtParts(WithoutSmt(p), high, 0, low);
  }

  lemma SmtParts(p: nat, high: nat, bit: nat, low: nat)
    requires p == high * 0x2_0000 + bit * 0x1_0000 + low && bit < 2 && low < 0x1_0000
    ensures p % 0x1_0000 == low && SmtBit(p) == bit && p / 0x2_0000 == high
  {
    assert p / 0x1_0000 == 2 * high + bit;
  }

  lemma AbiMajorIsSet(p: nat)
    ensures var q := WithAbiMajor255(p);
      AbiMajor(q) == 255 && SameButAbiMajor(q, p) && (q == p <==> AbiMajor(p) == 255)
  {
    var low, byte, high := p % 0x100, p / 0x100 % 0x100, p / 0x100 / 0x100;
    assert p == high * 0x1_0000 + byte * 0x100 + low;
    AbiParts(p, high, byte, low);
    AbiParts(WithAbiMajor255(p), high, 255, low);
  }

  lemma AbiParts(p: nat, high: nat, byte: nat, low: nat)
    requires p == high * 0x1_0000 + byte * 0x100 + low && byte < 0x100 && low < 0x100
    ensures p % 0x100 == low && AbiMajor(p) == byte && p / 0x1_0000 == high
  {
    assert p / 0x100 == 0x100 * high + byte;
  }

  // ── The handlers ────────────────────────────────────────────────

  /** What the handlers read and run: the measurement file, the policy from the
      environment, whether the host has SMT active, and `snpguest generate id-block`,
      which makes new keys each time.  None is a file or a variable that cannot be used,
      or a tool that fails. */
  datatype IdTools<!W> = IdTools(
    measured: W -> Option<string>,
    policy: Option<nat>,
    smtActive: W -> bool,
    generate: (W, Input) -> Option<(string, string)>)

  const DONE := Returned(0, "", "")
  const COULD_NOT := Returned(1, "", "could not regenerate the ID block")

  /** The profile with an ID block made for an input. */
  function Regenerated(profile: VMProfile, i: Input, made: (string, string)): VMProfile {
    profile.(idBlock := Some(made.0), idAuth := Some(made.1), policy := Some(PolicyBits(i.policy)))
  }

  /** `_regenerate_id_block`. */
  function Regenerate<W>(tools: IdTools<W>, w: W, profile: Option<VMProfile>, i: Input): CallOutcome {
    match tools.generate(w, i)
    case None => CallOutcome(profile, COULD_NOT)
    case Some(made) =>
      if profile.None? then CallOutcome(None, Broken("replace() of None"))
      else CallOutcome(Some(Regenerated(profile.value, i, made)), DONE)
  }

  /** `set_bad_measurement`, `set_incompatible_policy` and `set_bad_abi_version`. */
  function InjectFault<W>(tools: IdTools<W>, w: W, profile: Option<VMProfile>, fault: Fault): CallOutcome {
    var measured := tools.measured(w);
    if fault.NoSmt? && !tools.smtActive(w) then CallOutcome(profile, COULD_NOT)
    else if measured.None? || |measured.value| != 96 || tools.policy.None? then CallOutcome(profile, COULD_NOT)
    else Regenerate(tools, w, profile, Faulty(fault, Input(measured.value, tools.policy.value)))
  }

  function HandlerOf(fault: Fault): string {
    match fault
    case BadMeasurement => "set_bad_measurement"
    case NoSmt => "set_incompatible_policy"
    case AbiMajor255 => "set_bad_abi_version"
  }

  function FaultOf(handler: string): Option<Fault> {
    if handler == HandlerOf(BadMeasurement) then Some(BadMeasurement)
    else if handler == HandlerOf(NoSmt) then Some(NoSmt)
    else if handler == HandlerOf(AbiMajor255) then Some(AbiMajor255)
    else None
  }

  lemma HandlersDiffer(fault: Fault)
    ensures FaultOf(HandlerOf(fault)) == Some(fault)
  {
    assert HandlerOf(BadMeasurement)[8] == 'm' && HandlerOf(AbiMajor255)[8] == 'a' && HandlerOf(NoSmt)[4] == 'i';
  }

  /** Any world, with the test module's three handlers in it. */
  function WithHandlers<W>(base: World<W>, tools: IdTools<W>): World<W> {
    base.(call := (w: W, h: string, v: View) =>
      match FaultOf(h)
      case None => base.call(w, h, v)
      case Some(fault) => (base.call(w, h, v).0, InjectFault(tools, w, v.profile, fault)))
  }

  /** The profile carries the ID block that the tools, as they are at w, make for the
      faulty input, and its policy. */
  ghost predicate Carries<W>(tools: IdTools<W>, w: W, fault: Fault, p: VMProfile) {
    && tools.measured(w).Some? && |tools.measured(w).value| == 96 && tools.policy.Some?
    && var i := Faulty(fault, Input(tools.measured(w).value, tools.policy.value));
       var made := tools.generate(w, i);
       && made.Some? && p.idBlock == Some(made.value.0) && p.idAuth == Some(made.value.1)
       && p.policy == Some(PolicyBits(i.policy))
  }

  /** A handler that reports success has put such a block into the profile. */
  lemma SuccessInjects<W>(tools: IdTools<W>, w: W, profile: Option<VMProfile>, fault: Fault)
    requires InjectFault(tools, w, profile, fault).verdict == DONE
    ensures var after := InjectFault(tools, w, profile, fault).profile;
      after.Some? && Carries(tools, w, fault, after.value)
  {
    hide Faulty;
  }

  /** When a handler succeeds, and what else it leaves alone: it changes the profile in
      nothing but the block and the policy, and not at all unless it succeeds. */
  lemma SuccessIff<W>(tools: IdTools<W>, w: W, profile: Option<VMProfile>, fault: Fault)
    ensures var o := InjectFault(tools, w, profile, fault);
      && (o.verdict == DONE <==>
            && profile.Some? && (fault.NoSmt? ==> tools.smtActive(w))
            && tools.measured(w).Some? && |tools.measured(w).value| == 96 && tools.policy.Some?
            && tools.generate(w, Faulty(fault, Input(tools.measured(w).value, tools.policy.value))).Some?)
      && (o.verdict == DONE ==>
            var p := o.profile.value;
            p.(idBlock := profile.value.idBlock, idAuth := profile.value.idAuth, policy := profile.value.policy)
            == profile.value)
      && (o.verdict != DONE ==> o.profile == profile && !o.verdict.CallEscapes? && o.verdict != Returned(0, "", ""))
  {
    hide Faulty;
  }

  // ── What a pass shows ───────────────────────────────────────────

  /** The messages of a launch that succeeded. */
  const BOOT_MESSAGES := ["VM launch verified", "VM launched and guest booted"]

  ghost predicate SaysSoWhenBooted<W(!new)>(world: World<W>) {
    forall w, p :: var o := world.launch(w, p).1; o.Started? && o.ok ==> o.message in BOOT_MESSAGES
  }

  function ReasonOf(fault: Fault): string {
    match fault
    case BadMeasurement => "Bad measurement"
    case NoSmt => "SNP_LAUNCH_START"
    case AbiMajor255 => "Policy is not allowed"
  }

  lemma AbsentLetter(hay: string, needle: string)
    requires needle != "" && needle[0] !in hay
    ensures !Contains(hay, needle)
  {
    forall i | 0 <= i <= |hay| ensures !OccursAt(hay, needle, i) {
      if i < |hay| {
        assert hay[i..][0] == hay[i];
      }
    }
  }

  /** No message of success gives a reason. */
  lemma SuccessGivesNoReason(message: string, fault: Fault)
    requires message in BOOT_MESSAGES
    ensures !Contains(message, ReasonOf(fault))
  {
    hide Contains, ReasonOf;
    ReasonLeads(fault);
    if message == BOOT_MESSAGES[0] {
      FirstMessageLacks(message);
    } else {
      SecondMessageLacks(message);
    }
    AbsentLetter(message, ReasonOf(fault));
  }

  lemma ReasonLeads(fault: Fault)
    ensures ReasonOf(fault) != ""
    ensures ReasonOf(fault)[0] == 'B' || ReasonOf(fault)[0] == 'S' || ReasonOf(fault)[0] == 'P'
  {
  }

  lemma FirstMessageLacks(message: string)
    requires message == "VM launch verified"
    ensures 'B' !in message && 'S' !in message && 'P' !in message
  {
  }

  lemma SecondMessageLacks(message: string)
    requires message == "VM launched and guest booted"
    ensures 'B' !in message && 'S' !in message && 'P' !in message
  {
  }

  /** The launch failed, with a message that gives the reason: QEMU exited, or the guest
      did not boot. */
  predicate RefusedFor(o: LaunchOutcome, reason: string) {
    match o
    case Started(ok, message) => !ok && Contains(message, reason)
    case Refused(error) => Contains(error, reason)
    case LaunchEscapes(_) => false
  }

  /** Right after the handler, a guest was launched that carries the faulty block made
      at w, and the launch failed for the reason. */
  ghost predicate WasRefused<W>(tools: IdTools<W>, w: W, fault: Fault, t: seq<Event>) {
    exists k | 0 < k < |t| && t[k - 1].HandlerCalled? && t[k].Launched? ::
      && t[k - 1].handler == HandlerOf(fault) && Carries(tools, w, fault, t[k].profile)
      && RefusedFor(t[k].outcome, ReasonOf(fault))
  }

  /** Two steps of a plan: a handler that injects a fault, and a launch that should be
      refused. */
  predicate IsCase(steps: seq<Step>, n: nat, fault: Fault) {
    && n + 1 < |steps| && steps[n].severity != Info && steps[n + 1].severity != Info
    && steps[n].action == Callable(HandlerOf(fault)) && steps[n].expected == ExitCode(0)
    && steps[n + 1].action.VmLaunch? && steps[n + 1].expected == StdoutContains(ReasonOf(fault))
  }

  lemma PassedInjection<W>(base: World<W>, cfg: Config, step: Step, r: Run<W>, tools: IdTools<W>, fault: Fault)
    requires step.action == Callable(HandlerOf(fault)) && step.expected == ExitCode(0)
    requires var sr := Perform(WithHandlers(base, tools), cfg, step, r).1; sr.Some? && sr.value.result == Pass
    ensures var r' := Perform(WithHandlers(base, tools), cfg, step, r).0;
      && r'.profile.Some? && Carries(tools, r.world, fault, r'.profile.value)
      && |r'.trace| == |r.trace| + 1 && r.trace <= r'.trace
      && r'.trace[|r.trace|].HandlerCalled? && r'.trace[|r.trace|].handler == HandlerOf(fault)
  {
    hide HandlerOf, FaultOf, Faulty, Carries;
    HandlersDiffer(fault);
    assert InjectFault(tools, r.world, r.profile, fault).verdict == DONE;
    SuccessInjects(tools, r.world, r.profile, fault);
  }

  /** A launch step that passes for its reason did launch the context's guest, and the
      launch failed. */
  lemma PassedRejection<W(!new)>(world: World<W>, cfg: Config, step: Step, r: Run<W>, fault: Fault)
    requires step.action.VmLaunch? && step.expected == StdoutContains(ReasonOf(fault)) && SaysSoWhenBooted(world)
    requires var sr := Perform(world, cfg, step, r).1; sr.Some? && sr.value.result == Pass
    ensures r.profile.Some?
    ensures var r' := Perform(world, cfg, step, r).0;
      && |r'.trace| == |r.trace| + 1 && r.trace <= r'.trace
      && var e := r'.trace[|r.trace|];
         e.Launched? && SameGuest(e.profile, r.profile.value) && RefusedFor(e.outcome, ReasonOf(fault))
  {
    hide Contains, ReasonOf;
    var p := ProfileToLaunch(cfg, step.action.guestId, r.profile.value, world.freshId(r.world));
    var o := world.launch(r.world, p).1;
    if o.Started? && o.ok {
      SuccessGivesNoReason(o.message, fault);
    }
  }

  lemma CarriesSame<W>(tools: IdTools<W>, w: W, fault: Fault, p: VMProfile, q: VMProfile)
    requires Carries(tools, w, fault, p) && SameGuest(q, p)
    ensures Carries(tools, w, fault, q)
  {
  }

  lemma PassAdvances<W>(world: World<W>, cfg: Config, steps: seq<Step>, r: Run<W>)
    requires |r.results| < |steps|
    requires var sr := Perform(world, cfg, steps[|r.results|], r).1; sr.Some? && sr.value.result == Pass
    ensures var r', a := Perform(world, cfg, steps[|r.results|], r).0, Advance(world, cfg, steps, r);
      a.profile == r'.profile && a.trace == r'.trace
  {
    hide Perform;
  }

  /** In a passing test of any plan, each case was really put to the platform, with the
      block its handler made in its turn, and refused for the reason it should be. */
  lemma PassMeansRefused<W(!new)>(base: World<W>, cfg: Config, plan: Plan, w: W, n: nat,
                                  tools: IdTools<W>, fault: Fault)
    requires Execute(WithHandlers(base, tools), cfg, plan, w).verdict == Completed(Pass)
    requires IsCase(plan.steps, n, fault) && SaysSoWhenBooted(base)
    ensures var world := WithHandlers(base, tools);
      WasRefused(tools, After(world, cfg, plan, w, n).world, fault, Execute(world, cfg, plan, w).trace)
  {
    hide Perform, Advance, Carries, RefusedFor, HandlerOf, ReasonOf, FaultOf, InjectFault;
    var world, steps := WithHandlers(base, tools), plan.steps;
    Verdicts.PassedTurn(world, cfg, plan, w, n);
    Verdicts.PassedTurn(world, cfg, plan, w, n + 1);
    var r0, r1 := After(world, cfg, plan, w, n), After(world, cfg, plan, w, n + 1);
    var r2 := After(world, cfg, plan, w, n + 2);
    assert r1 == Advance(world, cfg, steps, r0) && r2 == Advance(world, cfg, steps, r1);
    PassAdvances(world, cfg, steps, r0);
    PassAdvances(world, cfg, steps, r1);
    PassedInjection(base, cfg, steps[n], r0, tools, fault);
    PassedRejection(world, cfg, steps[n + 1], r1, fault);
    Verdicts.RunsGrow(world, cfg, plan, w, n + 2, |steps|);
    var t, k := Execute(world, cfg, plan, w).trace, |r1.trace|;
    assert r2.trace <= t && t[k] == r2.trace[k] && t[k - 1] == r1.trace[k - 1];
    CarriesSame(tools, r0.world, fault, r1.profile.value, t[k].profile);
  }

  /** The ID block test, in any world whose successful launches say so: a pass means
      that the platform refused, for the right reason, a block with another measurement,
      one whose policy has an ABI version of 255, and on a host with SMT one whose
      policy forbids it. */
  lemma IdBlockPassMeansRefused<W(!new)>(base: World<W>, cfg: Config, declared: VMProfile, smtActive: bool, w: W,
                                         tools: IdTools<W>)
    requires var plan := Plan(ShippedPlans.IdBlockSteps(smtActive), declared, true);
      Execute(WithHandlers(base, tools), cfg, plan, w).verdict == Completed(Pass)
    requires SaysSoWhenBooted(base)
    ensures var plan := Plan(ShippedPlans.IdBlockSteps(smtActive), declared, true);
      var world, abi := WithHandlers(base, tools), if smtActive then 13 else 11;
      var t := Execute(world, cfg, plan, w).trace;
      && WasRefused(tools, After(world, cfg, plan, w, 7).world, BadMeasurement, t)
      && (smtActive ==> WasRefused(tools, After(world, cfg, plan, w, 10).world, NoSmt, t))
      && WasRefused(tools, After(world, cfg, plan, w, abi).world, AbiMajor255, t)
  {
    hide WasRefused, Execute, After, SaysSoWhenBooted, IsCase;
    var plan := Plan(ShippedPlans.IdBlockSteps(smtActive), declared, true);
    CasesOfPlan(smtActive);
    PassMeansRefused(base, cfg, plan, w, 7, tools, BadMeasurement);
    if smtActive {
      PassMeansRefused(base, cfg, plan, w, 10, tools, NoSmt);
    }
    PassMeansRefused(base, cfg, plan, w, if smtActive then 13 else 11, tools, AbiMajor255);
  }

  lemma CasesOfPlan(smtActive: bool)
    ensures var steps := ShippedPlans.IdBlockSteps(smtActive);
      && IsCase(steps, 7, BadMeasurement)
      && (smtActive ==> IsCase(steps, 10, NoSmt))
      && IsCase(steps, if smtActive then 13 else 11, AbiMajor255)
  {
    var steps := ShippedPlans.IdBlockSteps(smtActive);
    var abi := if smtActive then 13 else 11;
    assert steps[7] == ShippedPlans.ID_BLOCK_MEASUREMENT[0] && steps[8] == ShippedPlans.ID_BLOCK_MEASUREMENT[1];
    assert smtActive ==> steps[10] == ShippedPlans.ID_BLOCK_SMT[0] && steps[11] == ShippedPlans.ID_BLOCK_SMT[1];
    assert steps[abi] == ShippedPlans.ID_BLOCK_ABI[0] && steps[abi + 1] == ShippedPlans.ID_BLOCK_ABI[1];
  }
}
