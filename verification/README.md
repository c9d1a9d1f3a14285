# A verified model of `sev_verify`

`sev_verify` certifies SEV-SNP hosts: it executes ordered test plans against a
host, one guest VM slot and the SEV-SNP firmware, and folds the results into a
certified level. This project models the parts whose correctness decides a
certificate and proves what they promise, over every run, every pattern of
failures and every input. Check it with `dafny verify dfyconfig.toml`.

## How it is organised

| files | what they model |
|---|---|
| `Prelude`, `Bits`, `Models` | text, decimal and bit helpers; steps, profiles, results, outcomes of primitives |
| `Runner`, `Machine` | the step runners and the run machine, as functions of an arbitrary world (`Env`) |
| `TestRun` | the same run as the program performs it: an object with a VM slot, a context and a result list; every method is proved to reach the state that `Machine` assigns |
| `RunProperties`, `Evidence`, `LaunchProfiles`, `Escapes` | theorems about every run of every plan in every world |
| `TcbText`, `TcbValues` | the TCB text the tools print, its parser, comparison, lowering and `config set` |
| `ConfigCommit`, `ConfigCommitSafety`, `…Runs`, `…Complete`, `…Pass`, `…Limits`, `…Escapes` | the config/commit plan on a firmware with Reported, Committed and Current TCBs, and whole-run theorems |
| `IdBlock`, `IdBlockProperties`, `IdBlockComplete`, `IdBlockHost` | the ID block plan, what its `pass` proves, when it passes, and a host enforcing the firmware's rules on which it does |
| `Certification`, `CertifiedLevel`, `CertificationRun` | version filters, manifest selection, the filtered run, the severity fold, the chain, the cap and the JSON levels; and the whole certification, down to the evidence behind a certified level |
| `AttestationReport` | the ATTESTATION_REPORT parser (section 7.3 of AMD publication 56860; TCB_VERSION, section 2.2) |
| `Base64`, `HostData`, `GuestVsock`, `Cpuid` | base64 (section 4 of RFC 4648), HOST_DATA text, the guest channel's loops, the CPUID decoder |

The world is never trusted. In `Env<W>` the shell, QEMU, stop, vsock, pull and
handler calls are arbitrary functions of a world state, and each may also let an
exception out that no runner catches (the `…Escapes` outcomes). For the
config/commit plan the world is a firmware state plus `Fates`: arbitrary
functions of a tick that advances with every primitive, saying for each command
whether it takes effect, what it reports, how tools lay out their text and
whether they fail. A statement for all fates is a statement for every pattern of
failures. Orders on TCBs are componentwise. A guest that starts has no report
files; a file pulled to the host stays in the artifact directory, which is never
cleaned.

## What the proofs found

- **A stale report can open the commit gate.** The gate before `snphost commit`
  reads `report_after_reset.bin` from an artifact directory that is reused. If
  the pull fails, a report left by an earlier run is read instead.
  `StaleReportAdvancesFloor` is a run in which provisional firmware is committed
  without `--allow-host-changes`; `FloorHeldExactly` shows that this is the only
  way: the floor is held in every run iff Committed equals Current or no such
  report exists.
- **An escaping exception skips the teardown.** The teardown steps survive every
  failed step, but not an exception that no runner catches, such as undecodable
  command output: `EscapeLeavesOverride`. The conditions are exact. Over all
  worlds the teardown is carried out in every run iff escapes are excluded
  (`TornDownExactly`); over all worlds with working resets Reported ends at
  Current in every run past its first step iff escapes are excluded or there was
  nothing to restore (`RestoredExactly`). A VM whose handle was returned is still
  stopped, or its last stop attempted, by `finally` (`HandlesConserved`).
- **An exception during a launch can leave QEMU running.** When it escapes from
  `vm_launch` after the process was started, for instance from the boot ping, no
  handle is kept and nothing stops it. A process that a run started outlives it
  iff that happened or the last stop failed (`OutlivesExactly`).
- **A pass does not show that `config set` took effect.** No step compares Reported
  with the lowered TCB. On a committed host every passing run's setting took effect
  iff Reported was Current at the start (`SettingShownExactly`); from the state that
  an interrupted run leaves, all steps pass although it has no effect
  (`PassesWithoutSetting`). What a pass does show is `PassMeansShown`.
- **Two spellings of a version run a manifest twice**, such as `-v 3.0,3_0` and
  `-v 3.0,3.0/`. Version strings name one folder iff they agree up to `.` against
  `_`, repeated slashes and slashes at the end (`FolderCollides`): `ManifestTwice`
  gives both inputs, `ManifestsOnce` the exact condition.
- **Non-ASCII base64 output escapes.** It raises a plain `ValueError`, which the
  pull does not turn into its own error: `FetchedIsDecoded` says exactly when, and
  `NonAsciiEscapes` gives an input.
- **Two handlers raise where they mean to return.** The mismatch branch of
  `verify_match` and the `except` clauses of the report checks read names that
  are not bound; the steps fail either way. `VerifyResultDecides`,
  `VerifyGuestRaises` and `GateDecides` say exactly when.
- **The CPUID decoder raises for every EAX below 2^20**, because the slice of
  the extended family is then empty: `DecodeIsArithmetic`.
- The feature's documentation says both that `config reset` restores Reported to
  Current and that Reported never exceeds Committed
  (`docs/features/tcb-config-commit.md` lines 20 and 29), which conflict on a
  provisional host. The safety theorems let a reset leave any value; the
  completeness theorem assumes Committed equal to Current.

## Model

| member | source | states |
|---|---|---|
| TestRun.TestRun.constructor | sev_verify/cli.py:416-429 | A run starts with an empty VM slot, no results, and the merged profile in its context. |
| TestRun.TestRun.Start | sev_verify/vm_profile.py:192-274 | A launch changes the slot only if a handle was returned, whether or not the guest booted; the attempt is recorded with its profile and outcome. |
| TestRun.TestRun.RunLaunch | sev_verify/cli.py:447-481 | Whole new state and result of a launch step: needs a profile and an empty slot, and in debug mode leaves the profile it launched in the context. |
| TestRun.TestRun.StopVm | sev_verify/vm_profile.py:444-454 | A stop addresses the given handle; the slot is the caller's business. |
| TestRun.TestRun.RunStop | sev_verify/cli.py:482-504 | The slot is emptied exactly when the stop itself did not error; a stop with nothing tracked is an error. |
| TestRun.TestRun.RunHost | sev_verify/runner.py:112-167 | A host step leaves slot, profile and results alone and yields a result unless an exception escapes. |
| TestRun.TestRun.RunOnGuest | sev_verify/cli.py:527-537 | Commands and pulls are sent only to a handle that booted; otherwise the launch message is the error. |
| TestRun.TestRun.RunGuest | sev_verify/cli.py:507-537 | A guest step starts the VM itself when none is tracked and keeps the new handle tracked. |
| TestRun.TestRun.RunCallable | sev_verify/runner.py:310-374 | The handler is shown the current profile, handle and exactly the results so far; what it leaves as profile is kept even when it raises. |
| TestRun.TestRun.RunStep | sev_verify/cli.py:432-545 | Dispatch on the kind, with the context's handle refreshed first. |
| TestRun.TestRun.SkipFrom | sev_verify/cli.py:583-591 | One skip result per remaining step, in order. |
| TestRun.TestRun.RunSteps | sev_verify/cli.py:429-592 | The loop reaches exactly the outcome that the run machine assigns to the plan, so every theorem about the machine holds of this loop. |
| TestRun.TestRun.ExecuteTest | sev_verify/cli.py:364-608 | As above with the `finally` clause: whatever is tracked at the end, on every way out, is stopped. |
| Runner.BootedMessageIsFixed | sev_verify/vm_profile.py:232-274 | A returned handle carries the launched profile, is ok exactly when the guest answered, and then has one fixed message. |
| RunProperties.StepGrows | sev_verify/cli.py:432-591 | A step never touches earlier results, records its actions under its own index, executes only its own command or handler, and never yields a skip. |
| RunProperties.VerdictCharacterised | sev_verify/cli.py:416-592 | A completed run has one result per step in plan order; the skips are exactly the steps after the first failed setup step and none of them acts; the verdict is pass iff no setup or required step failed; a handler at step i sees exactly the first i results. |
| RunProperties.ActionsInOrder | sev_verify/cli.py:432-608 | Actions follow each other in plan order, the teardown last. |
| Escapes.RunEnds | sev_verify/cli.py:432-608 | When nothing escapes, every run has one result per step, and it comes to a verdict iff its teardown does not fail to stop a VM. |
| RunProperties.StepTracks | sev_verify/cli.py:447-537 | Every step, ended or raised, keeps the slot discipline: launches need an empty slot, and everything else addresses the tracked handle. |
| RunProperties.LaunchedThenTrackedOrStopped | sev_verify/cli.py:482-504 | In a disciplined history a returned handle is still tracked, or was successfully stopped before any other launch; a failed stop leaves it tracked. |
| RunProperties.HandlesConserved | sev_verify/cli.py:447-608 | On every run, also one cut short by a failed setup step or an escaping exception: no tracked handle is overwritten, guest actions target a booted tracked handle, and each handle ever returned is successfully stopped before any other launch, or `finally` made a last attempt on it that failed; in a run with a verdict every handle was stopped. |
| RunProperties.OutlivesExactly | sev_verify/vm_profile.py:222-274 | A process started by a launch outlives the run iff an exception escaped from that launch after the start, or the stop in the teardown, the last one tried, failed. |
| RunProperties.Reaches | sev_verify/cli.py:432-591 | A run with a verdict and no failed setup step below j passes through the state obtained by executing the first j steps. |
| RunProperties.PassMeansAllPassed | sev_verify/cli.py:572-592 | A pass verdict means every setup and required step was executed, one after the other from the initial state, and passed. |
| Evidence.StepJudges | sev_verify/runner.py:27-34 | A step passes iff the last action it took is the one it is for and ended as its expected result says; otherwise it counts as failed. |
| Evidence.PassIsEvidenced | sev_verify/runner.py:112-374 | A pass verdict is backed, for every setup and required step, by an action of that step in the history that ended as expected. |
| LaunchProfiles.CommandLineWins | sev_verify/runner.py:377-407 | Every guest of a run boots the image of the command line with its QEMU and OVMF overrides, whatever the test declares, if handlers leave these settings alone. |
| LaunchProfiles.IdBlockHandlersKeep | sev_verify/cert_tests/c3_0/c3_0_0_1/id_block_test.py:119-179 | The ID block handlers replace the profile but meet that condition. |
| TcbText.ParseTcbSections | sev_verify/cert_tests/c3_0/c3_0_0_1/snphost_config_commit.py:50-73 | The line loop with its two updated variables computes the fold of the line rule over the lines of the text. |
| TcbText.NoiseIgnored | sev_verify/cert_tests/c3_0/c3_0_0_1/snphost_config_commit.py:60-72 | A line that matches neither pattern can be removed anywhere without effect. |
| TcbText.PreambleIgnored | sev_verify/cert_tests/c3_0/c3_0_0_1/snphost_config_commit.py:60-72 | Lines before the first header, field lines included, have no effect. |
| TcbText.FieldRead | sev_verify/cert_tests/c3_0/c3_0_0_1/snphost_config_commit.py:47-72 | With any positive padding a printed field line matches the field pattern only, and gives back its name and value. |
| TcbText.ParseInvertsPrint | sev_verify/cert_tests/c3_0/c3_0_0_1/snphost_config_commit.py:50-73 | Parsing inverts printing for every list of well-formed sections, every padding and every headerless preamble; a repeated name is the last one's. |
| TcbText.SectionsDistinct | sev_verify/cert_tests/c3_0/c3_0_0_1/snphost_config_commit.py:50-73 | With distinct section names each section is read back whole. |
| TcbValues.MatchDecides | sev_verify/cert_tests/c3_0/c3_0_0_1/snphost_config_commit.py:31-44 | On printed TCBs the text comparison holds iff the four core components agree and FMC agrees where both list it. |
| TcbValues.MatchDecidesEquality | sev_verify/cert_tests/c3_0/c3_0_0_1/snphost_config_commit.py:31-44 | For TCBs of one shape the text comparison is equality. |
| TcbValues.ReadInvertsListing | sev_verify/cert_tests/c3_0/c3_0_0_1/snphost_config_commit.py:414-424 | The numbers read from a printed TCB are the TCB. |
| TcbValues.LowerIsOneStepDown | sev_verify/cert_tests/c3_0/c3_0_0_1/snphost_config_commit.py:425-439 | Lowering is possible iff a core component is non-zero; it stays componentwise at or below, keeps FMC, and lowers exactly one component by one, in the order boot loader, SNP, TEE, microcode. |
| TcbValues.ConfigSetRoundTrip | sev_verify/cert_tests/c3_0/c3_0_0_1/snphost_config_commit.py:405-411 | The `config set` command line is read back, word by word, as exactly the TCB and mask it was built for. |
| ConfigCommit.Shell | docs/features/tcb-config-commit.md:28-30 | Host commands of the plan change nothing of the firmware but ReportedTcb. |
| ConfigCommit.Call | sev_verify/cert_tests/c3_0/c3_0_0_1/snphost_config_commit.py:139-388 | No handler but the commit changes firmware or files. |
| ConfigCommitSafety.ShowRead | sev_verify/cert_tests/c3_0/c3_0_0_1/snphost_config_commit.py:76-104 | Reading `snphost show tcb` through print and parse gives the firmware's own Reported and Current. |
| ConfigCommitSafety.ReportRead | sev_verify/cert_tests/c3_0/c3_0_0_1/snphost_config_commit.py:107-136 | The same for the three TCBs of a displayed report. |
| ConfigCommitSafety.GateDecides | sev_verify/cert_tests/c3_0/c3_0_0_1/snphost_config_commit.py:313-362 | The gate passes iff the pulled report exists, can be displayed, and its Committed and Current agree or host changes are allowed; it raises iff the report exists and cannot be displayed. |
| ConfigCommitSafety.StepKeeps | sev_verify/cert_tests/c3_0/c3_0_0_1/snphost_config_commit.py:441-560 | No step but the commit moves the floor; a pull that passes leaves a fresh report; fresh files stay fresh. |
| ConfigCommitSafety.CommitSafety | sev_verify/cert_tests/c3_0/c3_0_0_1/snphost_config_commit.py:562-577 | In every run under every pattern of failures: Current never changes, Committed changes only by a commit, to Current, and a commit takes effect only after the gate passed, with its excuse. |
| ConfigCommitRuns.CommitOnlyAfterGate | sev_verify/cert_tests/c3_0/c3_0_0_1/snphost_config_commit.py:562-577 | In any world the commit handler is called, whether or not it takes effect, only in a run whose gate passed. |
| ConfigCommitSafety.FloorUnchanged | docs/features/tcb-config-commit.md:54-57 | The floor never goes down; without allowed host changes it stays, unless a stale report was there and the pull did not pass. |
| ConfigCommitRuns.TeardownNeverSkipped | sev_verify/cert_tests/c3_0/c3_0_0_1/snphost_config_commit.py:441-566 | In any world, a run that comes to a verdict, or in which nothing escapes, and that lowered the TCB executes every step up to the gate; both resets, and a stop of any tracked VM, precede every action of the gate and the commit, whichever steps fail. |
| ConfigCommitRuns.ReportedRestored | docs/features/tcb-config-commit.md:95-95 | With working resets, Reported equals Current after every run with a verdict past the first step, and after a raised run that got past the teardown. |
| ConfigCommitComplete.VerifyResultDecides | sev_verify/cert_tests/c3_0/c3_0_0_1/snphost_config_commit.py:139-168 | With a working tool the host checks pass iff Reported and Current compare as expected, and the match check raises otherwise. |
| ConfigCommitComplete.VerifyGuestDecides | sev_verify/cert_tests/c3_0/c3_0_0_1/snphost_config_commit.py:184-241 | With working tools the guest check passes iff the report carries the host's Reported and Current and these compare as expected. |
| ConfigCommitComplete.VerifyGuestRaises | sev_verify/cert_tests/c3_0/c3_0_0_1/snphost_config_commit.py:184-201 | The guest check raises iff one of its two readings fails. |
| ConfigCommitComplete.PlanLoads | sev_verify/cert_tests/c3_0/c3_0_0_1/snphost_config_commit.py:414-439 | On a working host with a non-zero core component the plan loads, for the TCB one step below Current. |
| ConfigCommitComplete.WorkingHostPasses | sev_verify/cert_tests/c3_0/c3_0_0_1/snphost_config_commit.py:414-578 | From every committed host with a non-zero core component, if everything works, all 17 steps pass, and the firmware ends with Reported = Committed = Current unchanged. |
| ConfigCommitPass.PassMeansShown | sev_verify/cert_tests/c3_0/c3_0_0_1/snphost_config_commit.py:184-262 | A pass means both checked reports were written and handed over by the guest of this run: the first with the host's Reported, which differed from Current, the second with Reported equal to Current; Current and Committed had not moved, and they agree or host changes were allowed. |
| ConfigCommitPass.PassesWithoutSetting | sev_verify/cert_tests/c3_0/c3_0_0_1/snphost_config_commit.py:171-241 | The run that passes from a lowered Reported although `config set` has no effect. |
| ConfigCommitPass.SettingShownExactly | sev_verify/cert_tests/c3_0/c3_0_0_1/snphost_config_commit.py:171-241 | On a committed host every passing run's `config set` took effect iff Reported was Current at the start. |
| ConfigCommitLimits.StaleReportAdvancesFloor | sev_verify/cli.py:399-401 | The run in which a report left in the artifact directory opens the gate on provisional firmware. |
| ConfigCommitLimits.FloorHeldExactly | sev_verify/cert_tests/c3_0/c3_0_0_1/snphost_config_commit.py:313-362 | Without allowed host changes the floor is held in every run iff Committed equals Current or no stale report reads as committed. |
| ConfigCommitEscapes.EscapeLeavesOverride | sev_verify/runner.py:134-156 | The run in which an exception outside the caught kinds leaves Reported at the override, or at what it was, although resets work. |
| ConfigCommitEscapes.ReportedAfterRun | sev_verify/cert_tests/c3_0/c3_0_0_1/snphost_config_commit.py:441-566 | When nothing escapes and resets work, all 17 results are there and Reported ends at Current whatever else fails, or as it was if the first step failed. |
| ConfigCommitEscapes.RestoredExactly | docs/features/tcb-config-commit.md:95-95 | Among the worlds with working resets, with or without escapes: every run past its first step leaves Reported at Current iff escapes are excluded or neither the lowered nor the initial Reported differs from Current. |
| ConfigCommitEscapes.TornDownExactly | docs/features/tcb-config-commit.md:95-95 | The teardown is carried out before the gate in every run iff escapes are excluded. |
| IdBlock.IdBytes | sev_verify/cvm_props.py:68-86 | An ID field is its ASCII bytes padded with zeros to 16. |
| IdBlock.MeasurementAccepted | sev_verify/cvm_props.py:154-187 | A file yields a digest iff its stripped text is that digest, 96 hexadecimal digits, with or without 0x. |
| IdBlock.FlipChangesFirstByte | sev_verify/cert_tests/c3_0/c3_0_0_1/id_block_test.py:182-204 | The corrupted digest is a digest that differs from the real one in the first byte and nowhere else. |
| IdBlock.WithoutSmtBits | sev_verify/cert_tests/c3_0/c3_0_0_1/id_block_test.py:267-303 | The incompatible policy is the policy with exactly bit 16 cleared. |
| IdBlock.ImpossibleAbiBits | sev_verify/cert_tests/c3_0/c3_0_0_1/id_block_test.py:306-332 | The impossible policy has bits 15 to 8 set and every other bit as before. |
| IdBlockProperties.LaunchStepPassed | sev_verify/runner.py:170-218 | A launch step passes only by an actual launch from an empty slot, of the profile in the context, that ended as expected. |
| IdBlockProperties.StopAfterLaunch | sev_verify/runner.py:184-243 | After a launch step, refused either way or not, the stop step leaves an empty slot for the next launch iff nothing was tracked or the stop worked. |
| IdBlockProperties.SetNegativePassed | sev_verify/cert_tests/c3_0/c3_0_0_1/id_block_test.py:119-332 | A negative handler passes only after the context holds a block built for the altered measurement or policy. |
| IdBlockProperties.VerifyFieldsPassed | sev_verify/cert_tests/c3_0/c3_0_0_1/id_block_test.py:49-113 | The field check passes iff the report parses for this host and carries the requested SVN, policy and IDs and an ID key. |
| IdBlockProperties.PassMeansRejected | sev_verify/cert_tests/c3_0/c3_0_0_1/id_block_test.py:398-480 | In a plan with the steps of a negative case, a pass verdict means its launch started from an empty slot, used the profile its handler had built from the altered block, and was refused, raised or not ok, with its expected text. |
| IdBlockProperties.PlanIsPlan | sev_verify/cert_tests/c3_0/c3_0_0_1/id_block_test.py:338-480 | The steps built for either state of SMT contain the positive case and every negative case, at their places. |
| IdBlockProperties.PassMeansAccepted | sev_verify/cert_tests/c3_0/c3_0_0_1/id_block_test.py:338-396 | A pass verdict means the guest booted with a block built for the computed measurement, that same guest wrote a report and handed it over, and the report that was checked parses and matches; wherever a pulled report arrives in the artifact directory and stopping a guest leaves it alone, the checked bytes are those that guest held. |
| IdBlockProperties.PassIsSound | sev_verify/cert_tests/c3_0/c3_0_0_1/id_block_test.py:338-480 | Both together, for every case of the test's plan, with and without SMT. |
| IdBlockComplete.CooperatingHostPasses | sev_verify/cert_tests/c3_0/c3_0_0_1/id_block_test.py:338-480 | With and without SMT the test passes on every host whose measuring and generating tools work, which boots the valid block, refuses each altered one for its reason, stops its guests and hands over a matching report. |
| IdBlockHost.RefusalIs | sev_verify/cert_tests/c3_0/c3_0_0_1/id_block_test.py:182-332 | Under the firmware's rules each altered block, for any acceptable policy, is refused for exactly the reason the plan expects. |
| IdBlockHost.RuleAbidingHostPasses | sev_verify/cert_tests/c3_0/c3_0_0_1/id_block_test.py:267-332 | For every encodable metadata with a policy the host can satisfy, every measurement, and both states of SMT, a host enforcing these rules passes the test. |
| Certification.ParseVersionFilters | sev_verify/cli.py:139-147 | The nested loops return the stripped non-empty parts of all entries in order. |
| Certification.CommaIsRepetition | sev_verify/cli.py:139-147 | A comma inside an entry means the same as giving the option twice. |
| Certification.ManifestVersionIdempotent | sev_verify/cli.py:150-158 | The manifest version of a manifest version is itself. |
| Certification.DedupOrder | sev_verify/cli.py:275-275 | Each manifest version is kept once, in the order of first mention. |
| Certification.GroupFilters | sev_verify/cli.py:262-273 | The first loop: which versions are asked for bare, the level filters of each version, and first-mention order. |
| Certification.DiscoverManifests | sev_verify/cli.py:250-291 | The manifests found, in order, each with its level filters. |
| Certification.SelectionIsMeaning | sev_verify/cli.py:161-204 | A test of a manifest is selected iff some filter for that manifest is bare or matches its level; the list that means everything is handed over iff the bare version was asked for. |
| Certification.OrderAndRepetitionImmaterial | sev_verify/cli.py:250-291 | Selection depends only on the set of filters. |
| Certification.EntriesAre | sev_verify/cli.py:275-289 | The entries are exactly those of the mentioned versions whose path names an existing manifest. |
| Certification.FolderCollides | sev_verify/cli.py:276-277 | Two version strings name one folder iff they agree up to dots against underscores, repeated slashes and slashes at the end. |
| Certification.ManifestsOnce | sev_verify/cli.py:275-289 | No manifest is entered twice iff no two versions asked for, with a manifest, name one folder. |
| Certification.ManifestTwice | sev_verify/cli.py:275-289 | The inputs `3.0,3_0` and `3.0,3.0/`, which enter a manifest twice. |
| CertifiedLevel.CollectLevels | sev_verify/models.py:335-351 | The collecting loop yields the levels of the tests in order of first appearance. |
| CertifiedLevel.LevelsAre | sev_verify/models.py:335-351 | These are exactly the non-empty levels of the tests, each once. |
| CertifiedLevel.FilterKeepsLevels | sev_verify/cli.py:182-204 | Filtering a loaded manifest never raises and keeps its levels and cap. |
| CertifiedLevel.ExecuteCertification | sev_verify/cli.py:630-684 | The loop runs the tests in order, each in the world the one before left, folds their severities, and ends at the first exception. |
| CertifiedLevel.RunTestsAre | sev_verify/cli.py:652-671 | A certification that no exception cut short has one result per test, in order, each obtained in the world left by the tests before it. |
| CertifiedLevel.FoldIsWorst | sev_verify/cli.py:615-627 | The overall result is one of the results (or pass) and none is worse. |
| CertifiedLevel.FoldIgnoresOrder | sev_verify/cli.py:615-627 | It does not depend on the order of the tests. |
| CertifiedLevel.GroupByLevel | sev_verify/output.py:20-31 | Grouping by level keeps exactly the results at each named level, in order. |
| CertifiedLevel.HighestCertifiedLevel | sev_verify/cli.py:687-723 | The loop with its breaks returns the last level of the longest passing prefix, clamped to the cap. |
| CertifiedLevel.ChainIs | sev_verify/cli.py:704-713 | Every level below the chain's length was run and passed, and the next one was not or did not. |
| CertifiedLevel.WriteLevels | sev_verify/output.py:82-95 | The level results that are written. |
| CertifiedLevel.ChainMatchesJson | sev_verify/output.py:82-95 | The chain has length n iff the JSON levels start with exactly n passes. |
| CertifiedLevel.IndexNeverFails | sev_verify/cli.py:716-721 | The clamp's lookups never fail on a loaded manifest. |
| CertifiedLevel.CertifiedIndex | sev_verify/cli.py:687-723 | The certified level stands at the lower of the chain's end and the cap. |
| CertifiedLevel.CertifiedIsSound | sev_verify/cli.py:652-723 | For any results of the selected tests: if they certify a level, every entry of the original manifest at or below it was selected and its own run passed, each such level has a test, and the cap is respected. |
| CertifiedLevel.CertifiedWasAskedFor | sev_verify/cli.py:139-204 | From the command line on: every entry at or below a certified level is one the filters asked for, and its run passed. |
| CertifiedLevel.FilteringNeverHelps | sev_verify/cli.py:182-204 | A filtered run never certifies more than the unfiltered run, when each selected entry has its result from there. |
| CertifiedLevel.PassCertifiesAll | sev_verify/cli.py:671-723 | Unfiltered results that fold to pass certify exactly the last level, or the cap if lower. |
| CertificationRun.CertifiedIsDemonstrated | sev_verify/cli.py:364-723 | A certified level means: for every entry at or below it, the filters asked for it, its plan loaded, and its run, in the world that the tests before it left, came to the verdict pass with an action that ended as expected for each setup and required step. |
| AttestationReport.ResolveByRange | sev_verify/attestation_report.py:257-277 | The table search in closed form; the ranges do not overlap. |
| AttestationReport.RegionsOrdered | sev_verify/attestation_report.py:136-157 | All field regions are disjoint, ordered and inside the 1184 bytes. |
| AttestationReport.RoundTripOnHost | sev_verify/attestation_report.py:312-458 | Writing any fields in place over any buffer, in the host's TCB layout, and parsing on that host returns exactly those fields, for every accepted version. |
| AttestationReport.RoundTripAlone | sev_verify/attestation_report.py:312-458 | The same without a host generation: the TCB is returned when the report's CPUID resolves, otherwise left undecoded with a note. |
| AttestationReport.GenerationCoherent | sev_verify/attestation_report.py:335-438 | If a v3+ report's CPUID resolves to g, parsing alone equals parsing with g, and any other host generation is rejected. |
| AttestationReport.TcbDecodedExactly | sev_verify/attestation_report.py:395-438 | The TCB is decoded iff a host or a resolvable report generation exists. |
| AttestationReport.RefusedExactly | sev_verify/attestation_report.py:335-438 | The exact condition under which parsing raises. |
| AttestationReport.OnlyReadBytesMatter | sev_verify/attestation_report.py:372-458 | The result depends only on the bytes of the read regions. |
| AttestationReport.NewerVersionsReadAlike | sev_verify/attestation_report.py:335-458 | Raising VERSION from 3 to any larger value changes only the version and its note. |
| Base64.DecodeOfEncode | sev_verify/guest_vsock.py:251-252 | Decoding inverts encoding for every byte string. |
| Base64.RemoveSpaceInverts | sev_verify/guest_vsock.py:248-248 | A text is a spaced-out version of another iff stripping gives that one. |
| Base64.PullIsExact | sev_verify/guest_vsock.py:228-256 | For every file and every way of spacing its base64 text the pull returns the file, and the empty file is the one refused. |
| Base64.FetchedIsDecoded | sev_verify/guest_vsock.py:228-256 | A pull succeeds iff the command did and the stripped text is non-empty ASCII base64, and then the file is not empty; it lets an exception out iff the command succeeded and the text is not ASCII. |
| Base64.NonAsciiEscapes | sev_verify/guest_vsock.py:251-256 | An output that lets the exception out. |
| Base64.SurplusPadsIgnored | sev_verify/guest_vsock.py:251-252 | Text of whole groups decodes to its content with any number of surplus pads. |
| HostData.EverySpellingDecodes | sev_verify/vm_profile.py:53-86 | Every hexadecimal, 0x and base64 spelling of 32 bytes, with surrounding white space, decodes to them and validates. |
| HostData.NoBase64IsHex | sev_verify/vm_profile.py:53-78 | No base64 text of 32 bytes is ever read as hexadecimal. |
| HostData.ValidatesExactly | sev_verify/vm_profile.py:81-86 | Validation accepts exactly the texts that spell 32 bytes. |
| GuestVsock.ReadResponse | sev_verify/guest_vsock.py:72-93 | The receive loop ends and collects what the stream hands over, within the limit. |
| GuestVsock.ReadsConcat | sev_verify/guest_vsock.py:72-93 | A stream that delivers chunks and ends yields their concatenation, or the error for too much or nothing. |
| GuestVsock.ChunkingImmaterial | sev_verify/guest_vsock.py:72-93 | How the bytes are split into chunks makes no difference; a payload is returned iff its length is positive and within the limit. |
| GuestVsock.WaitForGuest | sev_verify/guest_vsock.py:141-177 | The wait ends within as many failed pings as intervals cover the timeout, returns only on a well-formed reply, and stops early only when the process has exited. |
| GuestVsock.WaitDetermined | sev_verify/guest_vsock.py:141-201 | A guest that answers in time with its process alive is found up at its first answer. |
| Cpuid.DecodeIsArithmetic | modules/stop/host/beacon-report/mkosi.extra/usr/local/lib/scripts/get_processor_model.py:28-48 | The reversed bit-string slicing is the arithmetic on bit fields for EAX at least 2^20, and raises below. |
| Cpuid.SameProcessorsKnown | modules/stop/host/beacon-report/mkosi.extra/usr/local/lib/scripts/get_processor_model.py:50-64 | For families 0x19 and 0x1A the models it names are those the report parser knows, with Bergamo/Siena under Genoa's name. |

## Left out

- `expected_result` as text: steps carry the parsed form (`exit_code` or `stdout_contains`); the field validation of steps in `models.py` is not modelled.
- Texts that only people read: durations, hints, live output, Markdown, the step log, and the wording of most error messages (the texts that a step's expectation can inspect are modelled).
- Environment and OS detection, sysfs and `/proc/cpuinfo` reading, argument parsing, TOML and JSON decoding, module import: their results are parameters.
- QEMU argument assembly, key generation and the tools' internals: arbitrary outcomes. VCEK retrieval and signature verification are an uninterpreted success or failure.
- Profile fields other than the image, binaries, logs, debug flag, policy and ID block.
- A handler that exceeds its time limit is one more error outcome, after the handler has finished; handlers that edit earlier results (none does).
- `main`, prerequisites and their gating of the certification run, and `write_markdown`.
- Guest images that keep files from an earlier boot: a guest that starts has no report files.
- Escaping exceptions before a launch is attempted (such as a log directory that cannot be made) are merged with those of the launch.
- TcbText.ParseTcbSections: `\w` covers ASCII letters, digits and underscore only.
- TcbValues.ReadInvertsListing: `int()` is modelled on plain digit strings; signs, underscores and surrounding white space, which the tools do not print, are read as errors.
- IdBlockProperties.VerifyFieldsPassed: the environment variables for SVN and policy arrive as integers or a parse error.
- GuestVsock.ReadResponse: decoding of the collected bytes as JSON is not modelled.
- Cpuid.DecodeIsArithmetic: negative EAX does not occur.
- Base64.SurplusPadsIgnored: strict decoding as in Python 3.11, the oldest version the project supports; later versions may refuse surplus pads.
- Certification.ManifestsOnce: folders that the file system itself identifies, by links or by ignoring case, count as different.
