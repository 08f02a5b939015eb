# A verified model of the SEV-SNP certification harness

`sev_verify` certifies a host for AMD SEV-SNP: it loads plans of steps (host commands, guest launches and stops, guest commands, file pulls, Python handlers), runs them, and turns the results into a certification level. This project models that harness in Dafny and proves what its runs keep, together with the arithmetic its tests rest on.

## The parts

- **The executor** (`Models`, `VmProfiles`, `Runner`, `Executor`, `ExecuteTestLoop`). The world outside — QEMU, vsock, subprocesses, handlers — is a record of arbitrary functions on a state of arbitrary type, so a statement about every world and every plan is a statement about every run. `Executor.After` is the run as a state machine with a history of events. `ExecuteTestLoop` is the imperative loop with its mutable `StepContext` and the result list that the context shares, proved to compute exactly that machine.
- **Theorems about every run** (`StepOutcomes`, `Lifecycle`, `Verdicts`, `ProfileThreading`, `DebugRuns`, `Brackets`, `LaunchLogs`).
- **The TCB configuration test** (`SnphostTcb`, `Platforms`, `TcbSafety`, `TcbFloor`, `TcbPass`, `TcbRuns`, `TcbConforming`, `TcbClean`). The plan of `snphost_config_commit.py` in that executor, over a machine that holds Current, Committed and Reported TCBs, report files and a guest's files. Three kinds of machine appear: any machine at all (ordering properties), an honest one (tools may fail in any way, but what they print is true; the floor property and the meaning of a pass), and an obedient one (the test passes). `TcbConforming.ObedientMachine` is both honest and obedient, so the hypotheses can be met together.
- **TCB versions and attestation reports** (`TcbVersions`, `AttestationReports`, `ReportLayouts`, `ProcessorModels`), after section 7.3 of the AMD SEV-SNP Firmware ABI Specification (publication 56860).
- **Derived keys** (`KeyDerivation`, `KeyTests`, `KeyMeanings`, `KeyRuns`), after section 7.2 of the same specification. The firmware is any function from the number of a request and its value to an answer, so it may be inconsistent. `KeyRuns` puts the two bound tests into the plan they ship in, in an arbitrary world.
- **Certifications**: their run, test after test over one world (`CertificationRuns`), their arithmetic (`Certifications`) and the selection of manifests and tests (`VersionFilters`). Then the plans that ship with the tests (`ShippedPlans`), and the negative cases of the ID block test (`Rejections`), with a platform on which it passes (`IdBlockRuns`).

## What the proofs found

- **A guest can outlive its test in two ways only**, both of which happen: a launch that raises something other than `VMProfileError` after starting QEMU, and a stop in the `finally` clause that raises (`Lifecycle.GuestLifecycle`, `Lifecycle.GuestsCanBeLeft`). Where the world does neither, no test leaves a guest (`Lifecycle.TameWorldsLeaveNoGuest`).
- **An exception that escapes the loop between the set and the reset leaves the TCB lowered.** The reset runs exactly when no exception leaves the seven steps before it (`TcbClean.ResetRunsIff`), so always where nothing outside raises past the harness (`TcbClean.ResetsWithoutEscapes`, which applies to every machine whose tools report: `TcbClean.NeverEscapesFrom`, `TcbClean.ObedientNeverEscapes`). On an honest machine whose reset works, a guest command that cannot be sent (sev_verify/guest_vsock.py:67-69) ends the test with Reported lowered (`TcbClean.EscapeLeavesLowered`). A test that returns leaves Reported at Current (`TcbClean.ReturningTestsLeaveClean`).
- **A stale `report_after_reset.bin` can move the committed floor without permission.** Over all honest machines the floor is kept exactly if Committed equals Current, or no such file lies in the artifact directory, or the gate would refuse it (`TcbFloor.FloorIsKeptIff`); otherwise it is enough that the guest does not answer (`TcbFloor.StaleReportMovesFloor`).
- **`verify_differ` passes on output it cannot read.** Its pass shows a difference exactly on output that prints every core field on both sides, or prints some difference (`TcbPass.HostPassShowsDifference`, `TcbPass.UnreadableOutputDiffers`).
- **Some failure branches of `snphost_config_commit.py` read a name that is not bound** (lines 161, 197 and 329). The handler raises and the runner reports "error" where the code means to report "fail": on every mismatch after a reset, so that in no run does this check fail but by the tool's own exit code (`TcbPass.MatchIsNeverRefuted`), and on every output that the guest checks or the gate cannot read (`TcbPass.UnreadableOutputErrors`). The model follows the code.
- **A refusal inside the sweep goes unseen.** `docs/features/key-derivation.md` (lines 110-111) says that the sampled values each give a distinct key; the code notes a refused value and passes over it. A pass shows what the document says exactly if two values are swept or none (`KeyTests.PassCoversSweepIff`): for a TCB if its components add up to one, for an SVN if the bound is zero or one. Firmware that is right but for one refusal still passes (`KeyTests.RefusalGoesUnseen`).
- **Versions that share a folder run one manifest twice.** No manifest is run twice exactly if no two versions asked for share a folder, which takes an underscore (`VersionFilters.OncePerManifest`, `VersionFilters.UnderscoreFreeNeverClash`, `VersionFilters.UnderscoreRunsTwice`).
- **In debug mode, a launch without an id of its own writes the log files of the launch before it**, exactly then or when it has the same id (`LaunchLogs.LogsAreSharedIff`); so do the two launches of the key derivation test (`LaunchLogs.KeyDerivationSharesLogs`).
- The docstring of `run_vm_launch_step` (sev_verify/runner.py:175) says that a step's guest id overrides the profile's. It reaches the launch exactly in debug mode or where the profile has the same one (`LaunchLogs.StepIdReachesLaunchIff`); the model follows the code.

## Assumptions

- Handlers read the shared result list but do not change it, and call nothing of the executor themselves.
- A step has one of the six kinds; `BaseStep.__post_init__` rejects others.
- The wait after `kill` in `stop_vm` succeeds. A stop either ends QEMU, or raises `OSError`, or raises something else.
- A launch returns a result, or raises `VMProfileError` with no process left, or raises something else with or without one; the last is part of the model although the harness does not expect it.
- Environment updates and log writing do not fail.
- Resetting the configuration sets Reported to Current; committing sets Committed to Current and never lowers it (only where a theorem names an honest or obedient machine).

## Model

| member | source | states |
|---|---|---|
| ExecuteTestLoop.ExecuteTest | sev_verify/cli.py:378-608 | The test as the harness runs it, with a mutable context and an aliased result list, ends with the verdict, results, world and history of the state machine; a plan that does not load is an "error" without results |
| ExecuteTestLoop.RunSteps | sev_verify/cli.py:432-591 | The loop's variables after the last turn are those of the state machine |
| ExecuteTestLoop.RunStep | sev_verify/cli.py:440-545 | One turn, with its six kinds, implicit launches and retained launches, equals one transition |
| ExecuteTestLoop.RecordResult | sev_verify/cli.py:546-591 | Appending to the shared list, lowering the verdict and skipping the rest equals the machine's bookkeeping |
| ExecuteTestLoop.SkipTheRest | sev_verify/cli.py:585-588 | Every remaining step gets a skip, in order, in the shared list |
| Executor.StaysPut | sev_verify/cli.py:583-591 | A run that halted or raised does not change any more |
| StepOutcomes.EveryTurn | sev_verify/runner.py:112-374 | For every plan and world, each step that had its turn did what its kind does: a host or guest command passes exactly if its own exit code is the expected one, or its output contains the expected text, and its code and output are recorded; a refused launch counts as exit code 1; a stop, a pull and a handler are judged likewise; what could not be run is an error with its message; and world, profile, held guest and history change as that kind changes them |
| StepOutcomes.ExpectsIsMeets | sev_verify/runner.py:27-39 | The expectation check is equality of exit codes, or that the output is the text with something before and after it |
| StepOutcomes.EveryRunStarts | sev_verify/runner.py:377-407 | A run starts with nothing launched or recorded, and, if its test has a guest, with the module's profile whose image, and where given QEMU, OVMF and debug flag, are the command line's |
| StepOutcomes.EveryRunEnds | sev_verify/cli.py:590-608 | A run ends by stopping a guest that is still held, and raises exactly if an exception left the loop or that stop does not work |
| Lifecycle.GuestLifecycle | sev_verify/cli.py:447-608 | For every plan and world: at most one guest is alive at any moment, no event addresses a guest that is not alive, and one is left at the end exactly after a launch that raised late or a failed stop in `finally`, in which case the test raises |
| Lifecycle.AliveMeans | sev_verify/cli.py:507-537 | A guest is alive exactly when its launch left a process and no stop of it has succeeded since |
| Lifecycle.EveryGuestStopped | sev_verify/cli.py:606-608 | A test that returns has stopped every guest it started |
| Lifecycle.GuestsCanBeLeft | sev_verify/cli.py:606-608 | Both ways of leaving a guest behind do happen |
| Lifecycle.TameWorldsLeaveNoGuest | sev_verify/cli.py:447-608 | If no launch raises late and every stop works, no test leaves a guest, whether it returns or raises |
| Verdicts.ResultsAndVerdict | sev_verify/cli.py:546-605 | A test that returns has one result per step in plan order; skips are exactly the steps after a failed or errored setup step; it passes exactly when no setup or required step failed or errored |
| Verdicts.HandlersSeeEarlierResults | sev_verify/cli.py:416-441 | Each handler sees, through the shared list, exactly the results of the steps before its own |
| Verdicts.EveryRunIsWellRecorded | sev_verify/cli.py:572-591 | The same at every turn, also of a run that raises |
| Verdicts.RunsGrow | sev_verify/cli.py:546-546 | Results and history are only ever appended to |
| Verdicts.PerformReports | sev_verify/cli.py:447-545 | Where nothing outside raises past the harness, every step gives a result |
| ProfileThreading.LaunchesUseLatestProfile | sev_verify/cli.py:434-500 | Every launch, explicit or implicit, gives QEMU the guest object of the profile that the latest handler to replace it left, and without debug that very profile; every handler sees the profile of that guest |
| VmProfiles.SevGuestPartsCarry | sev_verify/vm_profile.py:316-334 | The guest object names an ID block and its auth block exactly when the profile has both, and then the profile's own; likewise the policy |
| VmProfiles.SevGuestPartsSwitch | sev_verify/vm_profile.py:316-334 | The object begins with its type and id; its numbers and host data are the profile's own, and kernel hashes and author key appear exactly when they are set |
| VmProfiles.PolicyKeepsValue | sev_verify/vm_profile.py:305-313 | A policy given as an integer or a decimal numeral is printed in hexadecimal with the same value, other text unchanged but for blanks |
| VmProfiles.QemuIsGiven | sev_verify/vm_profile.py:342-383 | Read as QEMU reads it, option by option, the command gives each option exactly the profile's own values |
| VmProfiles.SameGuestSameCommand | sev_verify/vm_profile.py:342-383 | Profiles that differ in guest id, log paths and debug flag give QEMU commands that differ in the serial log alone |
| DebugRuns.DebugIsTransparent | sev_verify/cli.py:462-500 | If nothing outside reads the debug fields, runs with and without debug have the same results, verdict, final world and order of events, with launches of the same guest |
| Brackets.BracketedPlansNeverCollide | sev_verify/cli.py:454-460 | If every launch step comes first or after a stop with no guest step between, and stops raise no OSError, no run reaches a launch with a guest held |
| Brackets.UnbracketedPlansCollide | sev_verify/cli.py:454-504 | A plan without that shape collides in every world where everything succeeds |
| Brackets.BracketedPlansPass | sev_verify/cli.py:432-608 | A plan with that shape whose steps expect success, and whose stops do not count, passes in every such world |
| Brackets.RefusedStopCollides | sev_verify/runner.py:226-233 | The condition on stops is needed: one refused stop makes a bracketed plan collide |
| ShippedPlans.ShippedPlansAreBracketed | sev_verify/cert_tests/c3_0/c3_0_0_1/id_block_test.py:341-480 | The plans of all four VM tests have that shape, the ID block plan with and without its SMT case |
| ShippedPlans.KeyDerivationIsClosed | sev_verify/cert_tests/c3_0/c3_0_0_1/key_derivation_test.py:469-602 | The key derivation plan has it too and ends with no guest |
| ShippedPlans.AllButStopsCount | sev_verify/cert_tests/c3_0/c3_0_0_1/id_block_test.py:341-480 | In the shipped plans every step counts for the verdict but the stops, the note that the SMT case does not apply, and the TCB plan's second reset |
| ShippedPlans.ShippedPlansNeverCollide | sev_verify/cert_tests/c3_0/c3_0_0_0/attestation_test.py:93-165 | No run of a shipped plan reaches a launch with a guest held, whatever became of earlier launches and rejections |
| LaunchLogs.LogsAreSharedIff | sev_verify/cli.py:462-477 | In a debug run whose handlers leave ids and paths alone, a launch step shares id and log files with the launch step before it exactly when it has no id of its own, or the same |
| LaunchLogs.StepIdReachesLaunchIff | sev_verify/cli.py:462-478 | A step's own guest id reaches the launch exactly in debug mode or where the context's profile has the same one |
| LaunchLogs.KeyDerivationSharesLogs | sev_verify/cert_tests/c3_0/c3_0_0_1/key_derivation_test.py:469-602 | In every passing debug run of the key derivation test two launches carry the same id and log files |
| Rejections.OneFault | sev_verify/cert_tests/c3_0/c3_0_0_1/id_block_test.py:182-324 | Each negative case changes one thing: the measurement in its first byte, always; the policy in its SMT bit, exactly if that was set; or in its ABI major version, exactly if that was not 255 |
| Rejections.SuccessIff | sev_verify/cert_tests/c3_0/c3_0_0_1/id_block_test.py:119-336 | A handler succeeds exactly if there is a profile, a 48-byte measurement and a policy, the tool makes a block, and for the SMT case SMT is active; it changes nothing else in the profile, and nothing at all unless it succeeds |
| Rejections.PassMeansRefused | sev_verify/cert_tests/c3_0/c3_0_0_1/id_block_test.py:119-336 | For the three handlers as written, in any plan and any world whose successful launches say so: a pass means that each case was launched right after its handler, with the block and policy that the tools, as the handler's own turn found them, make for the faulty input, and that the launch failed with the expected reason |
| Rejections.SuccessGivesNoReason | sev_verify/vm_profile.py:238-259 | No message of a successful launch contains one of the expected reasons |
| Rejections.IdBlockPassMeansRefused | sev_verify/cert_tests/c3_0/c3_0_0_1/id_block_test.py:341-480 | So a passing ID block test saw the platform refuse a wrong measurement, an ABI version of 255, and on a host with SMT a policy without it, each with the block its handler made in its turn |
| IdBlockRuns.IdBlockTestCanPass | sev_verify/cert_tests/c3_0/c3_0_0_1/id_block_test.py:341-480 | On a platform that judges blocks by measurement and policy the test passes, with SMT and without, so the hypotheses can be met together |
| SnphostTcb.ReadShown | sev_verify/cert_tests/c3_0/c3_0_0_1/snphost_config_commit.py:415-422 | Reading a printed section gives back the version, FMC printed as "None" or left out included |
| SnphostTcb.MatchShown | sev_verify/cert_tests/c3_0/c3_0_0_1/snphost_config_commit.py:31-44 | Two printed versions match exactly when their core fields agree and their FMC does, or one side prints none |
| SnphostTcb.FieldsMatchIff | sev_verify/cert_tests/c3_0/c3_0_0_1/snphost_config_commit.py:31-44 | Sections match exactly if the four core fields are on both sides and equal, and the FMC is equal where both have one |
| SnphostTcb.ReadFieldsIff | sev_verify/cert_tests/c3_0/c3_0_0_1/snphost_config_commit.py:415-422 | Reading raises exactly if a core field is missing or no numeral, or an FMC is given that is neither empty, nor "None", nor a numeral; otherwise each value is its field's |
| SnphostTcb.LowerOneField | sev_verify/cert_tests/c3_0/c3_0_0_1/snphost_config_commit.py:424-439 | The loop-free code on local variables raises exactly when no core field is above zero; otherwise one field goes down by one, the first above zero in the order boot loader, SNP, TEE, microcode, and the rest stays |
| SnphostTcb.LoweringIsDetermined | sev_verify/cert_tests/c3_0/c3_0_0_1/snphost_config_commit.py:424-439 | There is one such version, the one that the theorems use |
| Platforms.LoadSteps | sev_verify/cert_tests/c3_0/c3_0_0_1/snphost_config_commit.py:414-578 | `steps()` in its own form loads the plan of the theorems, or none where it raises |
| SnphostTcb.LoweringIsExact | sev_verify/cert_tests/c3_0/c3_0_0_1/snphost_config_commit.py:424-439 | Exactly one core field goes down by one, none below zero, the FMC stays; it raises exactly when all four are zero; the comparison sees the difference |
| SnphostTcb.ConfigSetIsUnderstood | sev_verify/cert_tests/c3_0/c3_0_0_1/snphost_config_commit.py:405-411 | The command line is read back as the version it was built for |
| SnphostTcb.ConfigSetWords | sev_verify/cert_tests/c3_0/c3_0_0_1/snphost_config_commit.py:405-411 | Word by word: boot loader, TEE, SNP, microcode, mask and, where there is one, FMC |
| TcbSafety.SetIsFollowedByReset | sev_verify/cert_tests/c3_0/c3_0_0_1/snphost_config_commit.py:449-557 | In any world: once show-tcb passed, the set runs; the reset runs exactly if step 8 is reached, always in a test that returns, and then the teardown reset too |
| TcbClean.ResetRunsIff | sev_verify/cert_tests/c3_0/c3_0_0_1/snphost_config_commit.py:449-525 | In any world: once show-tcb passed, the reset runs exactly when no exception leaves the steps 1 to 7 |
| TcbClean.ResetsWithoutEscapes | sev_verify/cert_tests/c3_0/c3_0_0_1/snphost_config_commit.py:449-557 | Where nothing raises past the harness, a test that gets past show-tcb runs the set and both resets |
| TcbClean.ReturningTestsLeaveClean | sev_verify/cert_tests/c3_0/c3_0_0_1/snphost_config_commit.py:441-578 | On any machine whose reset works, every test that returns ends with Reported at Current, if it began so or got past show-tcb |
| TcbClean.TestsWithoutEscapesLeaveClean | sev_verify/cert_tests/c3_0/c3_0_0_1/snphost_config_commit.py:441-578 | So does every test that gets past show-tcb where nothing raises past the harness |
| TcbClean.NeverEscapesFrom | sev_verify/runner.py:128-350 | On a machine whose tools report in every case, nothing raises past the harness, the handlers of the test included |
| TcbClean.ObedientNeverEscapes | sev_verify/cert_tests/c3_0/c3_0_0_1/snphost_config_commit.py:441-568 | The obedient machine is such a one, and its reset works, so the results about runs without escapes apply to it |
| TcbClean.EscapeLeavesLowered | sev_verify/guest_vsock.py:67-69 | For every platform with something to lower: on an honest machine whose set and reset work, an uncaught OSError of a guest command makes the test run the set, not the reset, raise, and leave Reported lowered |
| TcbSafety.CommitOnlyAfterGate | sev_verify/cert_tests/c3_0/c3_0_0_1/snphost_config_commit.py:558-578 | In any world: the commit handler is called only with the gate's own result before it, a pass |
| TcbFloor.FloorIsKept | sev_verify/cert_tests/c3_0/c3_0_0_1/snphost_config_commit.py:313-362 | On any honest machine, whatever fails, the test without permission leaves Committed and Current where they were, if the platform was safe to run on |
| TcbFloor.StaleReportMovesFloor | sev_verify/cert_tests/c3_0/c3_0_0_1/snphost_config_commit.py:313-330 | Where the platform was not safe to run on, there is an honest machine, whose guest does not answer, on which the floor is advanced |
| TcbFloor.FloorIsKeptIff | sev_verify/cert_tests/c3_0/c3_0_0_1/snphost_config_commit.py:313-362 | Over all honest machines, the test without permission keeps the floor exactly if the platform was safe to run on |
| TcbFloor.GatePassMeansCommitted | sev_verify/cert_tests/c3_0/c3_0_0_1/snphost_config_commit.py:336-362 | With guarded reports, a gate pass without permission means Committed equals Current |
| TcbFloor.SteadyUntilCommit | sev_verify/cert_tests/c3_0/c3_0_0_1/snphost_config_commit.py:441-568 | No step before the commit moves the floor, and every report that could reach the gate stays truthful or refused |
| TcbPass.PassIsSound | sev_verify/cert_tests/c3_0/c3_0_0_1/snphost_config_commit.py:139-388 | If the test passes on an honest machine, Reported really differed from the platform after the set, at both checks, and equalled it after the reset, at both checks, in the guest's reports too; Current and Committed stayed put until the commit, whose tool exited with code 0 |
| TcbRuns.CommitOutcome | sev_verify/cert_tests/c3_0/c3_0_0_1/snphost_config_commit.py:365-388 | In any run in which the commit step had its turn: it passes exactly if `snphost commit` exited with code 0, fails with any other code and errors if it could not be run |
| TcbRuns.SignatureOutcome | sev_verify/cert_tests/c3_0/c3_0_0_1/snphost_config_commit.py:265-304 | In any run: the signature step is what its tools said of the report, and fails without one |
| TcbRuns.DifferOutcome | sev_verify/cert_tests/c3_0/c3_0_0_1/snphost_config_commit.py:139-178 | In any run: the check after the set errors exactly if the tool cannot be run, and passes exactly if it exits with code 0 and prints a difference or leaves a core field out |
| TcbRuns.GuestCheckOutcome | sev_verify/cert_tests/c3_0/c3_0_0_1/snphost_config_commit.py:194-261 | In any run: a check of the guest's report passes exactly if the report is there, both outputs can be read, the guest agrees with the host in Reported and Current, and these agree or differ as they should |
| TcbRuns.GateOutcome | sev_verify/cert_tests/c3_0/c3_0_0_1/snphost_config_commit.py:310-362 | In any run: the gate passes exactly if its report can be read and shows Committed equal to Current, or permission was given |
| TcbRuns.PassRanTheTools | sev_verify/cert_tests/c3_0/c3_0_0_1/snphost_config_commit.py:441-568 | On any machine, in a test that passes the three host commands exited with code 0, both reports were made in a booted guest and pulled, the signature held and the commit tool exited with code 0 |
| TcbPass.HostChecksDecide | sev_verify/cert_tests/c3_0/c3_0_0_1/snphost_config_commit.py:139-168 | On output with exit code 0: verify-differ fails and verify-match passes exactly if every core field is printed on both sides and no printed field differs; otherwise verify-differ passes and verify-match raises |
| TcbPass.HostPassShowsDifference | sev_verify/cert_tests/c3_0/c3_0_0_1/snphost_config_commit.py:139-168 | A pass of verify-differ shows a printed difference exactly on complete output or where one is printed; without one, verify-match raises exactly on incomplete output |
| TcbPass.MatchIsNeverRefuted | sev_verify/cert_tests/c3_0/c3_0_0_1/snphost_config_commit.py:139-178 | In any run of the test in which the check after the reset had its turn: it fails exactly when the tool itself exits with another code than 0, and errors exactly when the tool cannot be run, prints different values or leaves a core field out |
| TcbPass.UnreadableOutputErrors | sev_verify/cert_tests/c3_0/c3_0_0_1/snphost_config_commit.py:194-362 | In any run: the two guest checks and the gate error exactly when the report is there but what they need cannot be read; at the gate that ends the test before the commit |
| TcbPass.UnreadableOutputDiffers | sev_verify/cert_tests/c3_0/c3_0_0_1/snphost_config_commit.py:139-168 | On output without sections verify-differ passes, verify-match raises, and the guest checks raise |
| TcbConforming.ObedientFirmwarePasses | sev_verify/cert_tests/c3_0/c3_0_0_1/snphost_config_commit.py:414-578 | On obedient tools with Committed equal to Current and a field to lower, the plan loads, all seventeen steps pass, and the platform ends as it began with Reported at Current |
| TcbConforming.LoadedPlan | sev_verify/cert_tests/c3_0/c3_0_0_1/snphost_config_commit.py:414-439 | The plan loads exactly when some core field is not zero, with the lowered version in it |
| TcbConforming.ObedientMachineIsObedient | sev_verify/cert_tests/c3_0/c3_0_0_1/snphost_config_commit.py:76-103 | There is an obedient machine that reads the plan's command lines |
| TcbConforming.ObedientMachineIsHonest | sev_verify/cert_tests/c3_0/c3_0_0_1/snphost_config_commit.py:76-103 | It is honest as well |
| TcbVersions.DecodeEncoded | sev_verify/attestation_report.py:196-236 | Decoding the little-endian bytes of an encoded version gives it back, in both layouts |
| TcbVersions.EncodeDecoded | sev_verify/attestation_report.py:196-236 | Encoding a decoded value gives it with the layout's reserved bytes cleared, so it is lossless exactly when they were zero |
| TcbVersions.EncodingIsWeighing | sev_verify/attestation_report.py:213-236 | For components that fit a byte, the packed value is their sum at the layout's byte places |
| TcbVersions.EncodingIsMonotone | sev_verify/attestation_report.py:213-236 | The packed form respects the componentwise order |
| TcbVersions.EncodingIsInjective | sev_verify/attestation_report.py:213-236 | It is equal exactly for versions that agree in what the layout holds |
| TcbVersions.PackedOrderIsCoarser | sev_verify/attestation_report.py:213-236 | A larger packed value need not be a higher version |
| TcbVersions.OrIsSum | sev_verify/attestation_report.py:213-236 | For every version and layout, the encoder's masks, shifts and `or` give the sum that the other results use |
| TcbVersions.EncodingFits | sev_verify/attestation_report.py:213-236 | The result is below 2^64 |
| AttestationReports.ResolveGeneration | sev_verify/attestation_report.py:290-298 | The table walk returns the first row that covers the processor |
| AttestationReports.TableIsUnambiguous | sev_verify/attestation_report.py:129-135 | At most one row covers a processor, so the order of rows does not matter; none exactly when the lookup raises |
| AttestationReports.ParseDecides | sev_verify/attestation_report.py:363-501 | For all bytes and any supplied generation: exactly when each error is raised, and when each optional field and note is present, with the CPUID, generation and version the notes give |
| AttestationReports.ParseReadsAbi | sev_verify/attestation_report.py:138-159 | Every field is read from its offset and in its size in section 7.3 of the ABI specification, integers little-endian |
| AttestationReports.ParseUsesOneLayout | sev_verify/attestation_report.py:412-476 | Both TCBs are decoded with the layout of the one generation settled on, which agrees with the report's own CPUID if that resolves |
| ReportLayouts.ReadWritten | sev_verify/attestation_report.py:138-159 | Reading a report that was laid out at the given offsets gives its content back |
| ReportLayouts.WriteRead | sev_verify/attestation_report.py:138-159 | Every 1184-byte report is what the writer makes of its content and its gaps |
| ReportLayouts.ParseInvertsWrite | sev_verify/attestation_report.py:401-501 | Parsing a written report gives back the fields it was written with |
| ReportLayouts.OnlyContentMatters | sev_verify/attestation_report.py:401-501 | Bytes outside the fields do not change the outcome, errors included |
| ReportLayouts.ParsedAlikeIff | sev_verify/attestation_report.py:401-501 | Two reports parse to the same value exactly when they agree in the fields that are read, TCB bytes up to the layout's reserved ones |
| ProcessorModels.DecodingIsShiftAndMask | modules/stop/host/beacon-report/mkosi.extra/usr/local/lib/scripts/get_processor_model.py:34-50 | Slicing the reversed binary text gives the shift-and-mask family and model for every EAX from 2^20, and raises for every smaller one |
| ProcessorModels.TablesAgree | modules/stop/host/beacon-report/mkosi.extra/usr/local/lib/scripts/get_processor_model.py:52-64 | From family 0x19 on, the beacon's series and the report parser's table know the same processors and agree; below it the beacon knows Naples and Rome, by extended models 0 and 3 of family 0x17 |
| KeyDerivation.SweepValues | sev_verify/cert_tests/c3_0/c3_0_0_1/key_derivation_test.py:120-130 | Sweep values increase strictly from 0 to the maximum; all of them below 16, nine otherwise |
| KeyMeanings.SweepValuesAre | sev_verify/cert_tests/c3_0/c3_0_0_1/key_derivation_test.py:120-130 | A value is swept exactly if it is at most the maximum and, from 16 on, within two of either end or one of the middle |
| KeyDerivation.SweepIsEconomical | sev_verify/cert_tests/c3_0/c3_0_0_1/key_derivation_test.py:355-362 | No packed TCB is swept twice, and their number is 1 plus the sum over components of one less than the sweep's length |
| KeyDerivation.TcbSweepIsSmall | sev_verify/cert_tests/c3_0/c3_0_0_1/key_derivation_test.py:355-362 | For every launch TCB in either layout, at most 76 distinct TCBs |
| KeyDerivation.PackingIsInjective | sev_verify/cert_tests/c3_0/c3_0_0_1/key_derivation_test.py:64-76 | Single-component TCBs pack to the same integer only when they are the same or both zero |
| KeyDerivation.ValuesCount | sev_verify/cert_tests/c3_0/c3_0_0_1/key_derivation_test.py:383-386 | As many distinct values as keys exactly when no two share a value |
| KeyTests.AskSweep | sev_verify/cert_tests/c3_0/c3_0_0_1/key_derivation_test.py:355-372 | The loops with the `attempted` set make exactly the economical list of requests and collect exactly their non-empty keys |
| KeyTests.AskAbove | sev_verify/cert_tests/c3_0/c3_0_0_1/key_derivation_test.py:334-350 | The loops above the bound ask launch+1 to launch+3 up to 255 of each component, and pass exactly when all are refused |
| KeyTests.TestTcb | sev_verify/cert_tests/c3_0/c3_0_0_1/key_derivation_test.py:292-386 | For any report bytes and any firmware: it raises exactly when a request it makes breaks down, and passes exactly when the launch TCB is accepted, everything above refused, and fewer than two TCBs were swept or at least two non-empty, pairwise distinct keys came back; a pass has asked every request in order |
| KeyTests.TestSvn | sev_verify/cert_tests/c3_0/c3_0_0_1/key_derivation_test.py:236-289 | The same for the guest SVN, whose sweep is left out at bound 0 |
| KeyMeanings.TcbPassMeans | sev_verify/cert_tests/c3_0/c3_0_0_1/key_derivation_test.py:292-386 | Whatever the firmware, a pass of the TCB test means that the launch TCB was requested first and accepted, every version above it by up to three in one component alone was requested and refused, every sampled one was requested, and nothing else was |
| KeyMeanings.SvnPassMeans | sev_verify/cert_tests/c3_0/c3_0_0_1/key_derivation_test.py:236-289 | The same for the SVN test: the bound, the three above it, and the sampled ones unless the bound is zero |
| KeyMeanings.TcbPassIff | sev_verify/cert_tests/c3_0/c3_0_0_1/key_derivation_test.py:292-386 | Over all firmware that answers consistently, on the versions themselves: the TCB test is passed exactly if the launch TCB is accepted, all above refused, no sampled request breaks down, and unless the launch TCB is zero two sampled versions give keys and no two the same |
| KeyMeanings.SvnPassIff | sev_verify/cert_tests/c3_0/c3_0_0_1/key_derivation_test.py:236-289 | The same for SVNs |
| KeyRuns.HandleSvn | sev_verify/cert_tests/c3_0/c3_0_0_1/key_derivation_test.py:236-289 | From its first line on, a missing, unreadable or malformed report included, the handler gives the verdict that the results about runs use |
| KeyRuns.HandleTcb | sev_verify/cert_tests/c3_0/c3_0_0_1/key_derivation_test.py:292-386 | The same for the TCB test |
| KeyRuns.SvnStepExamines | sev_verify/cert_tests/c3_0/c3_0_0_1/key_derivation_test.py:469-602 | In any run of the key derivation test whose SVN step had its turn: it passes exactly when the report lying there gives an exam that the answers of that turn satisfy, and errors exactly when one of its requests breaks down or the report cannot be read |
| KeyRuns.TcbStepExamines | sev_verify/cert_tests/c3_0/c3_0_0_1/key_derivation_test.py:469-602 | The same for the TCB step |
| KeyRuns.KeyPassMeansSatisfied | sev_verify/cert_tests/c3_0/c3_0_0_1/key_derivation_test.py:469-602 | In any world: if the whole test passes, the answers satisfied both exams, each set by the report at its handler's turn |
| KeyTests.LaunchIsKnownIff | sev_verify/attestation_report.py:363-476 | The TCB test finds a launch TCB exactly in reports of the right size, of version 3 or later, whose CPUID is of the host's generation or of none known, and reads it from offset 0x1F0 with the host's layout |
| KeyRuns.ConformingGuestPasses | sev_verify/cert_tests/c3_0/c3_0_0_1/key_derivation_test.py:469-602 | Conversely, with any such report and any firmware that conforms, the whole test passes in every world where everything else succeeds |
| KeyTests.ConformingFirmwareSatisfies | sev_verify/cert_tests/c3_0/c3_0_0_1/key_derivation_test.py:292-386 | Firmware with the componentwise bound and a key of its own for every TCB always passes |
| KeyTests.ConformingSvnSatisfies | sev_verify/cert_tests/c3_0/c3_0_0_1/key_derivation_test.py:236-289 | Likewise for the SVN |
| KeyTests.GenuineConforms | sev_verify/attestation_report.py:196-236 | Such firmware exists for every launch TCB: one that decodes the request |
| KeyTests.RefusalGoesUnseen | sev_verify/cert_tests/c3_0/c3_0_0_1/key_derivation_test.py:363-372 | Firmware that also refuses one swept TCB below the bound, any but the launch TCB, still passes if three are swept |
| KeyTests.PassCoversSweepIff | sev_verify/cert_tests/c3_0/c3_0_0_1/key_derivation_test.py:355-386 | Over all firmware: a pass shows a key of its own for every swept value exactly when two values are swept, or none |
| KeyTests.TcbPassCoversSweepIff | sev_verify/cert_tests/c3_0/c3_0_0_1/key_derivation_test.py:292-386 | For TCBs: exactly when the components of the launch TCB add up to one |
| KeyTests.SvnPassCoversSweepIff | sev_verify/cert_tests/c3_0/c3_0_0_1/key_derivation_test.py:236-289 | For SVNs: exactly when the bound is zero or one |
| KeyTests.OnlyRequestsMatter | sev_verify/cert_tests/c3_0/c3_0_0_1/key_derivation_test.py:318-386 | The verdict depends on the answers to the listed requests alone |
| KeyTests.FewRequests | sev_verify/cert_tests/c3_0/c3_0_0_1/key_derivation_test.py:318-362 | A TCB test makes at most 92 requests |
| CertificationRuns.ExecuteCertification | sev_verify/cli.py:630-684 | The loop ends as the state machine of tests over one world: with no result exactly if an exception leaves a test, else with one result per test and an overall result that is among them and no better than any, or pass |
| CertificationRuns.EndsAtFirstRaise | sev_verify/cli.py:655-670 | For any tests, whatever they do to the world: the run ends with the first test that an exception leaves, no later test runs, and every earlier one has its result, each from the world its predecessors left |
| CertificationRuns.TestGives | sev_verify/cli.py:388-605 | A test is an error exactly if its plan does not load, passes exactly if it is achieved, fails exactly if it returned with a setup or required step failed or errored, and otherwise gives nothing |
| CertificationRuns.NoGuestBetweenTests | sev_verify/cli.py:655-670 | No guest is alive between two tests of a certification, nor after one that returns |
| CertificationRuns.CertifiedIffAchieved | sev_verify/cli.py:630-723 | For any tests in any world: a level up to the cap is certified, or a higher one, exactly when every level up to it has tests and each of them, in the world its predecessors left, loaded its plan, passed, passed every setup and required step and left no guest |
| Certifications.WorstIsOrderless | sev_verify/cli.py:611-627 | The overall severity does not depend on the order of tests, and is pass exactly when all pass |
| Certifications.WorstIs | sev_verify/cli.py:611-627 | The overall result, outcome by outcome: anything unknown outweighs an error, an error a failure, a failure a skip, a skip a pass |
| Certifications.FillLevels | sev_verify/models.py:338-344 | The loop with the seen set lists the levels by first mention |
| Certifications.LevelsAreInOrder | sev_verify/models.py:338-344 | No level twice, and a level listed earlier was mentioned before every test of a later one |
| Certifications.ManifestIsWellBuilt | sev_verify/models.py:335-351 | A certification that is built has distinct levels, those of its tests among them, and a cap among them unless there are none |
| Certifications.DefineDecides | sev_verify/models.py:335-351 | A manifest is refused exactly if its cap is no level of its tests while some test has one; otherwise tests and cap are kept, and the levels are those of the tests and no others, each once, in order of first mention |
| Certifications.HighestCertifiedLevel | sev_verify/cli.py:687-723 | The level is the last of the longest prefix of levels that were run and passed, or the cap if that is earlier; `index` never raises |
| Certifications.ImprovingNeverLowers | sev_verify/cli.py:687-723 | Improving test results never lowers the level |
| Certifications.FilteredIsNoHigher | sev_verify/cli.py:182-204 | With the same test outcomes, a filtered run certifies no higher level than the full run |
| Certifications.KeptJoin | sev_verify/cli.py:182-196 | Filtering keeps the order of tests, and each test on its own |
| Certifications.FilteringNeverRaises | sev_verify/cli.py:193-204 | Building the filtered copy never raises and keeps levels and cap |
| Certifications.LevelTable | sev_verify/output.py:82-95 | A row of the JSON table is pass when the level was run and passed, skip when it was not run, fail otherwise |
| Certifications.TableAgrees | sev_verify/output.py:82-105 | Every level up to the certified one is "pass" in the table, and below the cap the next is "fail" or "skip" |
| Certifications.OverallPassCertifies | sev_verify/cli.py:652-723 | If a certification passes overall, a level is certified exactly when the first level was run; built from a manifest and unfiltered, it is the cap or else the last level |
| VersionFilters.ParseVersionFilters | sev_verify/cli.py:139-147 | The nested loops collect the stripped, non-empty pieces in order |
| Texts.StripMeans | sev_verify/cli.py:144-144 | Stripping takes the blanks off both ends and nothing else |
| VersionFilters.FiltersAre | sev_verify/cli.py:139-147 | The filters are the pieces between commas, stripped, that are not empty |
| VersionFilters.CommasSeparate | sev_verify/cli.py:139-147 | Joined filters mean the same as separate ones, and each is read back |
| VersionFilters.ManifestVersionIsPrefix | sev_verify/cli.py:150-158 | The manifest version is a prefix of the filter, its own manifest version, and the filter itself exactly when that has at most two components |
| VersionFilters.ManifestVersionComponents | sev_verify/cli.py:150-158 | The components of the manifest version are the first two of the filter's |
| VersionFilters.ManifestVersionOf | sev_verify/cli.py:150-158 | "a", "a.b" and "a.b.rest" have manifest versions "a", "a.b" and "a.b" |
| VersionFilters.MatchesLevelIff | sev_verify/cli.py:161-179 | A filter matches the level it names and, without a hyphen, every level that continues it with one; nothing else |
| VersionFilters.FolderOf | sev_verify/cli.py:280-280 | The folder is "c" and the version with underscores for dots; that of "3.0" is "c3_0" |
| VersionFilters.DiscoveredInOrder | sev_verify/cli.py:279-291 | Entries are listed in the order in which their versions were first asked for |
| VersionFilters.LevelFiltersJoin | sev_verify/cli.py:270-276 | The level filters of a version are listed as they were given |
| VersionFilters.DiscoverManifests | sev_verify/cli.py:250-291 | The loops over a set and a dictionary give one entry per mentioned version that has a manifest, in order |
| VersionFilters.EmptyMeansBare | sev_verify/cli.py:270-291 | The filter list that means "everything" arises exactly when the bare version was given |
| VersionFilters.SelectionIsUnion | sev_verify/cli.py:161-291 | A test is selected exactly when some filter denotes it on its own |
| VersionFilters.OncePerManifest | sev_verify/cli.py:279-291 | Entries follow the order of first mention, and no manifest is run twice exactly when no two mentioned versions share a folder |
| VersionFilters.UnderscoreFreeNeverClash | sev_verify/cli.py:280-280 | Versions without underscores never share a folder |
| VersionFilters.UnderscoreRunsTwice | sev_verify/cli.py:280-280 | "3.0" and "3_0" run the same manifest twice |
| VersionFilters.LevelFiltersKeepLevels | sev_verify/cli.py:161-196 | A level filter keeps or drops the tests of a level together, and drops those without a level |

## Left out

- LaunchLogs.LogsAreSharedIff: speaks of launch steps with no other launch step between, and leaves out launches that guest steps make.
- DebugRuns.DebugIsTransparent: speaks of worlds that do not read the guest id, log paths and debug flag and whose guest journal can be fetched or fails on vsock, because a handler that reads them can of course tell.
- Brackets.UnbracketedPlansCollide: speaks of plans whose steps expect success and whose stops are not setup steps, because another plan may end before it collides.
- SnphostTcb.ConfigSetIsUnderstood: reads plain numerals, not the signs, spaces and underscores that Python's `int` also takes.
- TcbConforming.ObedientFirmwarePasses: takes the tools' printed sections as parsed; the line patterns of `_parse_tcb_sections` are not part of this model.
- KeyTests.TestTcb: the request's other parameters (root key, VMPL, field select) are fixed by the test and not part of a request here.
- KeyRuns.KeyPassMeansSatisfied: takes the answers of a turn as any function of the world and of what the handler sees; that they come from the guest of the first launch is not stated.
- CertificationRuns.ExecuteCertification: what a test does before its first step (loading, the artifact directory) is one outcome of the world, and printing is left out.
- VersionFilters.ParseVersionFilters: stripping knows the ASCII blanks only.
- Process, socket and file input and output, vsock framing, JSON, TOML and Markdown writing, and the thread pool behind a handler's timeout are outcomes of the world.
- Keys, signatures, `snpguest`, `snphost` and key server fetches are outcomes or the small platform machine.
- Step results leave out durations, the command text and hints; `StepLogger` and the guest journal's text are not modelled.
- Durations, polling for a booted guest, environment and guest OS detection and terminal output have no part in the results.
- The parsing of `expected_result` strings and the checks of `BaseStep.__post_init__` and `TestDefinition.__post_init__`; steps here are already well formed.
- Rejections.IdBlockPassMeansRefused: speaks of worlds whose successful launches carry one of the two messages that `vm_launch` gives them.
- `generate_id_block` and `verify_id_block_fields` are handlers like any other; `snpguest generate id-block` is an arbitrary function.
- The smaller key tests (determinism, VMPL, root key, field select, two guests) compare two or a few keys and would only add easy members; so would `detect_vmpl`.
- Launch validation in `VMProfile.validate` and `vm_launch` itself, which is an outcome; the QEMU command is built as one expression rather than by appending.
- Prerequisite tests and the exit code of `main`.
