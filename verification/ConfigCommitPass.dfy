/** What a `pass` of the config/commit test proves about the reports that were
    compared, and what it does not prove: that `config set` took effect. */
module ConfigCommitPass {
  import opened Prelude
  import opened Models
  import opened Machine
  import opened RunProperties
  import opened TcbText
  import opened TcbValues
  import opened ConfigCommit
  import opened ConfigCommitSafety
  import opened ConfigCommitRuns
  import opened ConfigCommitComplete

  /** All TCBs of one processor have an FMC component, or none has. */
  ghost predicate OneShape(f: Fates, lo: Tcb, fw: Firmware) {
    && SameShape(fw.reported, fw.current) && SameShape(fw.committed, fw.current) && SameShape(lo, fw.current)
    && forall k :: f.resets(k).Some? ==> SameShape(f.resets(k).value, fw.current)
  }

  /** All that the proofs use of the plan. */
  ghost predicate PassPlan(lo: Tcb, steps: seq<Step>) {
    && Script(lo, steps) && FloorPlan(steps)
    && forall j | 0 <= j < 17 && j != STOP_STEP && j != TEARDOWN_STEP :: !steps[j].severity.Info?
  }

  lemma AllButTeardownCount(lo: Tcb)
    ensures forall j | 0 <= j < 17 && j != STOP_STEP && j != TEARDOWN_STEP :: !Plan(lo)[j].severity.Info?
  {
  }

  lemma PlanIsPassPlan(lo: Tcb)
    ensures PassPlan(lo, Plan(lo))
  {
    PlanIsScript(lo);
    PlanIsFloorPlan(lo);
    AllButTeardownCount(lo);
  }

  /** The state before step `j` of a run. */
  ghost function At(f: Fates, cfg: Config, steps: seq<Step>, j: nat, w0: HostState,
                    profile: Option<Profile>): RunState<HostState>
    requires j <= |steps|
  {
    Before(HostEnv(f), cfg, steps, j, Initial(w0, profile))
  }

  ghost predicate Passing(f: Fates, cfg: Config, steps: seq<Step>, w0: HostState, profile: Option<Profile>) {
    ExecuteTest(HostEnv(f), cfg, steps, w0, profile).finish == Verdict(Pass)
  }

  /** The step ended in `e`, which leads to `next`. */
  ghost predicate LeadsTo(st: RunState<HostState>, e: Exec<HostState>, next: RunState<HostState>) {
    e.Done? && next == e.st.Append(e.sr)
  }

  lemma EachLeadsOn(f: Fates, cfg: Config, lo: Tcb, steps: seq<Step>, j: nat, w0: HostState, profile: Option<Profile>)
    requires PassPlan(lo, steps) && Passing(f, cfg, steps, w0, profile) && j < 17
    ensures var st, next := At(f, cfg, steps, j, w0, profile), At(f, cfg, steps, j + 1, w0, profile);
            var e := ExecStep(HostEnv(f), cfg, steps[j], j, st);
            LeadsTo(st, e, next) && (j != STOP_STEP && j != TEARDOWN_STEP ==> e.sr.status.Pass?)
  {
    PassGoesOn(HostEnv(f), cfg, steps, j, w0, profile);
    if j != STOP_STEP && j != TEARDOWN_STEP {
      PassMeansAllPassed(HostEnv(f), cfg, steps, j, w0, profile);
    }
  }

  // ── What holds before each step ───────────────────────────────

  lemma ShellShape(f: Fates, lo: Tcb, fw0: Firmware, w: HostState, command: string)
    requires OneShape(f, lo, fw0) && SameShape(w.fw.reported, fw0.current)
    requires command in {SHOW, ConfigSet(lo, 0), RESET}
    ensures SameShape(Shell(f, w, command).0.fw.reported, fw0.current)
  {
    if command == SHOW {
      ShowSetsNothing(f, w);
    } else if command == ConfigSet(lo, 0) {
      ConfigSetRoundTrip(lo, 0);
    }
  }

  lemma StepShape(f: Fates, cfg: Config, lo: Tcb, fw0: Firmware, step: Step, j: nat, st: RunState<HostState>)
    requires OneShape(f, lo, fw0) && Scripted(lo, j, step) && j < GATE_STEP && step.kind != Callable(COMMIT_HANDLER)
    requires SameShape(st.world.fw.reported, fw0.current)
    ensures SameShape(ExecStep(HostEnv(f), cfg, step, j, st).st.world.fw.reported, fw0.current)
  {
    if step.kind.Host? {
      ShellOnFirmware(f, cfg, step, j, st);
      ShellShape(f, lo, fw0, st.world, step.kind.command);
    } else {
      FirmwareKept(f, cfg, step, j, st);
    }
  }

  /** Before the gate the floor has not moved and Reported has one shape. */
  lemma {:induction false} UpToGate(f: Fates, cfg: Config, lo: Tcb, steps: seq<Step>, j: nat, w0: HostState,
                                    profile: Option<Profile>)
    requires OneShape(f, lo, w0.fw) && PassPlan(lo, steps) && Passing(f, cfg, steps, w0, profile)
    requires j <= GATE_STEP
    ensures FloorInv(cfg, w0, j, At(f, cfg, steps, j, w0, profile))
    ensures SameShape(At(f, cfg, steps, j, w0, profile).world.fw.reported, w0.fw.current)
  {
    if j > 0 {
      var st := At(f, cfg, steps, j - 1, w0, profile);
      UpToGate(f, cfg, lo, steps, j - 1, w0, profile);
      EachLeadsOn(f, cfg, lo, steps, j - 1, w0, profile);
      OtherStepKeeps(f, cfg, steps[j - 1], w0, j - 1, st);
      StepShape(f, cfg, lo, w0.fw, steps[j - 1], j - 1, st);
    }
  }

  // ── The steps that matter ─────────────────────────────────────

  function ReportOf(fw: Firmware): Report {
    Report(fw.current, fw.committed, fw.reported)
  }

  lemma BootPassed(f: Fates, cfg: Config, step: Step, i: nat, st: RunState<HostState>, e: Exec<HostState>)
    requires step.kind.VmLaunch? && step.expected == OK
    requires e == ExecStep(HostEnv(f), cfg, step, i, st) && e.Done? && e.sr.status.Pass?
    ensures e.st.launch.Some? && e.st.launch.value.ok && e.st.world.guestFiles == map[]
  {
    if st.profile.Some? && st.launch.None? {
      var p := LaunchProfile(HostEnv(f), cfg, step.kind.guestId, st.profile.value, st.world);
      assert HostEnv(f).boot(st.world, p) == BootGuest(f, st.world, p);
    }
  }

  lemma AskPassed(f: Fates, cfg: Config, step: Step, i: nat, st: RunState<HostState>, e: Exec<HostState>,
                  file: string, request: string)
    requires step.kind == Guest(ReportLine(file, request)) && ' ' !in file
    requires st.launch.Some? && st.launch.value.ok
    requires e == ExecStep(HostEnv(f), cfg, step, i, st) && e.Done? && e.sr.status.Pass?
    ensures e.st.launch == st.launch && e.st.world.fw == st.world.fw && e.st.world.hostFiles == st.world.hostFiles
    ensures e.st.world.guestFiles == st.world.guestFiles
            || e.st.world.guestFiles == st.world.guestFiles[file := ReportOf(st.world.fw)]
  {
    var l := st.launch.value;
    ReportCommand(file, request);
    assert HostEnv(f).guest(st.world, l, step.kind.command) == GuestCommand(f, st.world, l, step.kind.command);
  }

  lemma PullPassed(f: Fates, cfg: Config, step: Step, i: nat, st: RunState<HostState>, e: Exec<HostState>)
    requires step.kind.GuestPull? && st.launch.Some? && st.launch.value.ok
    requires e == ExecStep(HostEnv(f), cfg, step, i, st) && e.Done? && e.sr.status.Pass?
    ensures e.st.launch == st.launch && e.st.world.fw == st.world.fw && e.st.world.guestFiles == st.world.guestFiles
    ensures var k := step.kind;
            && k.guestSrc in st.world.guestFiles
            && e.st.world.hostFiles == st.world.hostFiles[k.hostDest := st.world.guestFiles[k.guestSrc]]
  {
    var l, k := st.launch.value, step.kind;
    assert HostEnv(f).pull(st.world, l, k.guestSrc, k.hostDest) == PullFile(f, st.world, l, k.guestSrc, k.hostDest);
  }

  lemma CheckPassed(f: Fates, cfg: Config, step: Step, i: nat, st: RunState<HostState>, e: Exec<HostState>)
    requires i in {2, 6, 7, 9, 12} && step.kind == Callable(HandlerName(i)) && step.expected == OK
    requires e == ExecStep(HostEnv(f), cfg, step, i, st) && e.Done? && e.sr.status.Pass?
    ensures HandlerAt(f, st.world, i, cfg.allowHostChanges).1 == Exit(0)
    ensures OnlyTicks(st.world, e.st.world) && e.st.launch == st.launch
  {
    var view := ViewOf(cfg, st);
    CallAt(f, st.world, i, view);
    BareExit(f, st.world, i, cfg.allowHostChanges);
    assert HostEnv(f).call(st.world, HandlerName(i), view) ==
           (Call(f, st.world, HandlerName(i), view).0, view.profile, Call(f, st.world, HandlerName(i), view).1);
  }

  lemma BareExit(f: Fates, w: HostState, i: nat, allow: bool)
    requires i in {2, 6, 7, 9, 12}
    ensures var (w', out) := HandlerAt(f, w, i, allow);
            OnlyTicks(w, w') && (out.HandlerReturns? ==> out == Exit(out.code))
  {
  }

  lemma HostPassed(f: Fates, cfg: Config, step: Step, i: nat, st: RunState<HostState>, e: Exec<HostState>)
    requires step.kind.Host? && e == ExecStep(HostEnv(f), cfg, step, i, st)
    ensures e.st.launch == st.launch && e.st.world == Shell(f, st.world, step.kind.command).0
  {
    ShellOnFirmware(f, cfg, step, i, st);
  }

  /** A host check that passed had a working tool, and compared as it should. */
  lemma ResultPassed(f: Fates, w: HostState, expectMatch: bool)
    requires VerifyResult(f, w, expectMatch).1 == Exit(0) && SameShape(w.fw.reported, w.fw.current)
    ensures (w.fw.reported == w.fw.current) == expectMatch
  {
    assert f.tool(w.tick).Works?;
    VerifyResultDecides(f, w, expectMatch);
  }

  /** A guest check that passed had working tools, and compared as it should. */
  lemma GuestReportPassed(f: Fates, w: HostState, file: string, expectMatch: bool)
    requires VerifyGuestReport(f, w, file, expectMatch).1 == Exit(0)
    requires file in w.hostFiles && w.hostFiles[file] == ReportOf(w.fw) && SameShape(w.fw.reported, w.fw.current)
    ensures (w.fw.reported == w.fw.current) == expectMatch
  {
    var r := w.hostFiles[file];
    VerifyGuestRaises(f, w, r, expectMatch);
    VerifyGuestDecides(f, w, r, expectMatch);
  }

  // ── The steps where they stand ────────────────────────────────

  ghost predicate Asked(st: RunState<HostState>, next: RunState<HostState>, file: string) {
    && next.launch == st.launch && next.world.fw == st.world.fw && next.world.hostFiles == st.world.hostFiles
    && (next.world.guestFiles == st.world.guestFiles
        || next.world.guestFiles == st.world.guestFiles[file := ReportOf(st.world.fw)])
  }

  ghost predicate PulledTo(st: RunState<HostState>, next: RunState<HostState>, src: string, dest: string) {
    && next.launch == st.launch && next.world.fw == st.world.fw && next.world.guestFiles == st.world.guestFiles
    && src in st.world.guestFiles
    && next.world.hostFiles == st.world.hostFiles[dest := st.world.guestFiles[src]]
  }

  lemma BootAt(f: Fates, cfg: Config, lo: Tcb, steps: seq<Step>, w0: HostState, profile: Option<Profile>)
    requires PassPlan(lo, steps) && Passing(f, cfg, steps, w0, profile)
    ensures var st := At(f, cfg, steps, 4, w0, profile);
            st.launch.Some? && st.launch.value.ok && st.world.guestFiles == map[]
  {
    var st := At(f, cfg, steps, 3, w0, profile);
    EachLeadsOn(f, cfg, lo, steps, 3, w0, profile);
    BootPassed(f, cfg, steps[3], 3, st, ExecStep(HostEnv(f), cfg, steps[3], 3, st));
  }

  lemma AskAt(f: Fates, cfg: Config, lo: Tcb, steps: seq<Step>, j: nat, w0: HostState, profile: Option<Profile>,
              file: string, request: string)
    requires PassPlan(lo, steps) && Passing(f, cfg, steps, w0, profile)
    requires j < STOP_STEP && steps[j].kind == Guest(ReportLine(file, request)) && ' ' !in file
    requires At(f, cfg, steps, j, w0, profile).launch.Some? && At(f, cfg, steps, j, w0, profile).launch.value.ok
    ensures Asked(At(f, cfg, steps, j, w0, profile), At(f, cfg, steps, j + 1, w0, profile), file)
  {
    var st := At(f, cfg, steps, j, w0, profile);
    EachLeadsOn(f, cfg, lo, steps, j, w0, profile);
    AskPassed(f, cfg, steps[j], j, st, ExecStep(HostEnv(f), cfg, steps[j], j, st), file, request);
  }

  lemma PullAt(f: Fates, cfg: Config, lo: Tcb, steps: seq<Step>, j: nat, w0: HostState, profile: Option<Profile>,
               src: string, dest: string)
    requires PassPlan(lo, steps) && Passing(f, cfg, steps, w0, profile)
    requires j < STOP_STEP && steps[j].kind == GuestPull(src, dest)
    requires At(f, cfg, steps, j, w0, profile).launch.Some? && At(f, cfg, steps, j, w0, profile).launch.value.ok
    ensures PulledTo(At(f, cfg, steps, j, w0, profile), At(f, cfg, steps, j + 1, w0, profile), src, dest)
  {
    var st := At(f, cfg, steps, j, w0, profile);
    EachLeadsOn(f, cfg, lo, steps, j, w0, profile);
    PullPassed(f, cfg, steps[j], j, st, ExecStep(HostEnv(f), cfg, steps[j], j, st));
  }

  lemma CheckAt(f: Fates, cfg: Config, lo: Tcb, steps: seq<Step>, j: nat, w0: HostState, profile: Option<Profile>)
    requires PassPlan(lo, steps) && Passing(f, cfg, steps, w0, profile) && j in {2, 6, 7, 9, 12}
    ensures var st, next := At(f, cfg, steps, j, w0, profile), At(f, cfg, steps, j + 1, w0, profile);
            && HandlerAt(f, st.world, j, cfg.allowHostChanges).1 == Exit(0)
            && OnlyTicks(st.world, next.world) && next.launch == st.launch
  {
    var st := At(f, cfg, steps, j, w0, profile);
    EachLeadsOn(f, cfg, lo, steps, j, w0, profile);
    assert Scripted(lo, j, steps[j]);
    CheckPassed(f, cfg, steps[j], j, st, ExecStep(HostEnv(f), cfg, steps[j], j, st));
  }

  lemma HostAt(f: Fates, cfg: Config, lo: Tcb, steps: seq<Step>, j: nat, w0: HostState, profile: Option<Profile>)
    requires PassPlan(lo, steps) && Passing(f, cfg, steps, w0, profile) && j < STOP_STEP && steps[j].kind.Host?
    ensures var st, next := At(f, cfg, steps, j, w0, profile), At(f, cfg, steps, j + 1, w0, profile);
            next.launch == st.launch && next.world == Shell(f, st.world, steps[j].kind.command).0
  {
    var st := At(f, cfg, steps, j, w0, profile);
    EachLeadsOn(f, cfg, lo, steps, j, w0, profile);
    HostPassed(f, cfg, steps[j], j, st, ExecStep(HostEnv(f), cfg, steps[j], j, st));
  }

  // ── The reports ───────────────────────────────────────────────

  /** The guest tracked in `asked` wrote a report of the firmware's TCBs and handed
      it over: in `checked` it is in the artifact directory. */
  ghost predicate ReportFrom(asked: RunState<HostState>, checked: RunState<HostState>, file: string) {
    && asked.launch.Some? && asked.launch.value.ok
    && checked.launch == asked.launch
    && checked.world.fw == asked.world.fw
    && file in checked.world.hostFiles && checked.world.hostFiles[file] == ReportOf(asked.world.fw)
  }

  lemma Compared(f: Fates, asked: RunState<HostState>, sent: RunState<HostState>, checked: RunState<HostState>,
                 src: string, dest: string, expectMatch: bool)
    requires asked.launch.Some? && asked.launch.value.ok && src !in asked.world.guestFiles
    requires Asked(asked, sent, src) && PulledTo(sent, checked, src, dest)
    requires VerifyGuestReport(f, checked.world, dest, expectMatch).1 == Exit(0)
    requires SameShape(checked.world.fw.reported, checked.world.fw.current)
    ensures ReportFrom(asked, checked, dest)
    ensures (asked.world.fw.reported == asked.world.fw.current) == expectMatch
    ensures checked.world.guestFiles == asked.world.guestFiles[src := ReportOf(asked.world.fw)]
  {
    GuestReportPassed(f, checked.world, dest, expectMatch);
  }

  /** The report asked for at step `j`, pulled at the next and checked after it. */
  lemma ReportAt(f: Fates, cfg: Config, lo: Tcb, steps: seq<Step>, j: nat, w0: HostState, profile: Option<Profile>,
                 src: string, request: string, dest: string, expectMatch: bool)
    requires OneShape(f, lo, w0.fw) && PassPlan(lo, steps) && Passing(f, cfg, steps, w0, profile)
    requires j + 2 < STOP_STEP && ' ' !in src
    requires steps[j].kind == Guest(ReportLine(src, request)) && steps[j + 1].kind == GuestPull(src, dest)
    requires At(f, cfg, steps, j, w0, profile).launch.Some? && At(f, cfg, steps, j, w0, profile).launch.value.ok
    requires src !in At(f, cfg, steps, j, w0, profile).world.guestFiles
    requires VerifyGuestReport(f, At(f, cfg, steps, j + 2, w0, profile).world, dest, expectMatch).1 == Exit(0)
    ensures var asked, checked := At(f, cfg, steps, j, w0, profile), At(f, cfg, steps, j + 2, w0, profile);
            && ReportFrom(asked, checked, dest)
            && (asked.world.fw.reported == asked.world.fw.current) == expectMatch
            && checked.world.guestFiles == asked.world.guestFiles[src := ReportOf(asked.world.fw)]
  {
    AskAt(f, cfg, lo, steps, j, w0, profile, src, request);
    PullAt(f, cfg, lo, steps, j + 1, w0, profile, src, dest);
    UpToGate(f, cfg, lo, steps, j + 2, w0, profile);
    Compared(f, At(f, cfg, steps, j, w0, profile), At(f, cfg, steps, j + 1, w0, profile),
             At(f, cfg, steps, j + 2, w0, profile), src, dest, expectMatch);
  }

  lemma ReportSteps(lo: Tcb, steps: seq<Step>)
    requires Script(lo, steps)
    ensures steps[4].kind == Guest(ReportLine("report.bin", "request.bin"))
    ensures steps[5].kind == GuestPull("report.bin", LOWERED_REPORT)
    ensures steps[10].kind == Guest(ReportLine("report_after_reset.bin", "request_after_reset.bin"))
    ensures steps[11].kind == GuestPull("report_after_reset.bin", RESET_REPORT)
  {
    assert Scripted(lo, 4, steps[4]) && Scripted(lo, 5, steps[5]) && Scripted(lo, 10, steps[10])
        && Scripted(lo, 11, steps[11]);
  }

  lemma ReportNames()
    ensures ' ' !in "report.bin" && ' ' !in "report_after_reset.bin" && "report.bin" != "report_after_reset.bin"
  {
    assert "report.bin"[6] != "report_after_reset.bin"[6];
  }

  lemma ChecksAre(f: Fates, w: HostState, allow: bool)
    ensures HandlerAt(f, w, 6, allow) == VerifyGuestReport(f, w, LOWERED_REPORT, false)
    ensures HandlerAt(f, w, 12, allow) == VerifyGuestReport(f, w, RESET_REPORT, true)
  {
  }

  lemma GuestChecksPassed(f: Fates, cfg: Config, lo: Tcb, steps: seq<Step>, w0: HostState, profile: Option<Profile>)
    requires PassPlan(lo, steps) && Passing(f, cfg, steps, w0, profile)
    ensures VerifyGuestReport(f, At(f, cfg, steps, 6, w0, profile).world, LOWERED_REPORT, false).1 == Exit(0)
    ensures VerifyGuestReport(f, At(f, cfg, steps, 12, w0, profile).world, RESET_REPORT, true).1 == Exit(0)
  {
    CheckAt(f, cfg, lo, steps, 6, w0, profile);
    CheckAt(f, cfg, lo, steps, 12, w0, profile);
    ChecksAre(f, At(f, cfg, steps, 6, w0, profile).world, cfg.allowHostChanges);
    ChecksAre(f, At(f, cfg, steps, 12, w0, profile).world, cfg.allowHostChanges);
  }

  /** The first report, and that no file of the second name is there yet. */
  lemma FirstReport(f: Fates, cfg: Config, lo: Tcb, steps: seq<Step>, w0: HostState, profile: Option<Profile>,
                    src: string, request: string, dest: string, other: string)
    requires OneShape(f, lo, w0.fw) && PassPlan(lo, steps) && Passing(f, cfg, steps, w0, profile)
    requires steps[4].kind == Guest(ReportLine(src, request)) && steps[5].kind == GuestPull(src, dest)
    requires ' ' !in src && other != src
    requires VerifyGuestReport(f, At(f, cfg, steps, 6, w0, profile).world, dest, false).1 == Exit(0)
    ensures var asked, checked := At(f, cfg, steps, 4, w0, profile), At(f, cfg, steps, 6, w0, profile);
            && ReportFrom(asked, checked, dest)
            && asked.world.fw.reported != asked.world.fw.current
            && other !in checked.world.guestFiles
  {
    BootAt(f, cfg, lo, steps, w0, profile);
    ReportAt(f, cfg, lo, steps, 4, w0, profile, src, request, dest, false);
  }

  /** The reset and the checks around it keep the guest and its files. */
  lemma GuestStays(f: Fates, cfg: Config, lo: Tcb, steps: seq<Step>, w0: HostState, profile: Option<Profile>)
    requires OneShape(f, lo, w0.fw) && PassPlan(lo, steps) && Passing(f, cfg, steps, w0, profile)
    ensures var st6, st10 := At(f, cfg, steps, 6, w0, profile), At(f, cfg, steps, 10, w0, profile);
            st10.launch == st6.launch && st10.world.guestFiles == st6.world.guestFiles
  {
    assert Scripted(lo, 8, steps[8]);
    CheckAt(f, cfg, lo, steps, 6, w0, profile);
    CheckAt(f, cfg, lo, steps, 7, w0, profile);
    HostAt(f, cfg, lo, steps, 8, w0, profile);
    CheckAt(f, cfg, lo, steps, 9, w0, profile);
  }

  /** Both reports, whatever their files are called. */
  lemma BothReports(f: Fates, cfg: Config, lo: Tcb, steps: seq<Step>, w0: HostState, profile: Option<Profile>,
                    src: string, request: string, dest: string, src': string, request': string, dest': string)
    requires OneShape(f, lo, w0.fw) && PassPlan(lo, steps) && Passing(f, cfg, steps, w0, profile)
    requires steps[4].kind == Guest(ReportLine(src, request)) && steps[5].kind == GuestPull(src, dest)
    requires steps[10].kind == Guest(ReportLine(src', request')) && steps[11].kind == GuestPull(src', dest')
    requires ' ' !in src && ' ' !in src' && src' != src
    requires VerifyGuestReport(f, At(f, cfg, steps, 6, w0, profile).world, dest, false).1 == Exit(0)
    requires VerifyGuestReport(f, At(f, cfg, steps, 12, w0, profile).world, dest', true).1 == Exit(0)
    ensures var lowered, reset := At(f, cfg, steps, 4, w0, profile), At(f, cfg, steps, 10, w0, profile);
            && ReportFrom(lowered, At(f, cfg, steps, 6, w0, profile), dest)
            && ReportFrom(reset, At(f, cfg, steps, 12, w0, profile), dest')
            && reset.launch == lowered.launch
            && lowered.world.fw.reported != lowered.world.fw.current
            && reset.world.fw.reported == reset.world.fw.current
  {
    FirstReport(f, cfg, lo, steps, w0, profile, src, request, dest, src');
    GuestStays(f, cfg, lo, steps, w0, profile);
    ReportAt(f, cfg, lo, steps, 10, w0, profile, src', request', dest', true);
  }

  // ── The gate ──────────────────────────────────────────────────

  lemma GateOpened(f: Fates, cfg: Config, lo: Tcb, steps: seq<Step>, w0: HostState, profile: Option<Profile>)
    requires OneShape(f, lo, w0.fw) && PassPlan(lo, steps) && Passing(f, cfg, steps, w0, profile)
    ensures w0.fw.committed == w0.fw.current || cfg.allowHostChanges
  {
    var st11, st12 := At(f, cfg, steps, 11, w0, profile), At(f, cfg, steps, 12, w0, profile);
    var st15 := At(f, cfg, steps, GATE_STEP, w0, profile);
    UpToGate(f, cfg, lo, steps, 11, w0, profile);
    UpToGate(f, cfg, lo, steps, GATE_STEP, w0, profile);
    EachLeadsOn(f, cfg, lo, steps, 11, w0, profile);
    EachLeadsOn(f, cfg, lo, steps, GATE_STEP, w0, profile);
    GateStepKeeps(f, cfg, steps[GATE_STEP], w0, st15);
    StepGrows(HostEnv(f), cfg, steps[11], 11, st11);
    StepGrows(HostEnv(f), cfg, steps[GATE_STEP], GATE_STEP, st15);
    assert PassedAt(st12.results, PULL_RESET_STEP);
    ResultsGrow(f, cfg, lo, steps, 12, GATE_STEP, w0, profile);
  }

  lemma {:induction false} ResultsGrow(f: Fates, cfg: Config, lo: Tcb, steps: seq<Step>, i: nat, j: nat,
                                       w0: HostState, profile: Option<Profile>)
    requires PassPlan(lo, steps) && Passing(f, cfg, steps, w0, profile) && i <= j <= 17
    ensures At(f, cfg, steps, i, w0, profile).results <= At(f, cfg, steps, j, w0, profile).results
  {
    if i < j {
      ResultsGrow(f, cfg, lo, steps, i, j - 1, w0, profile);
      EachLeadsOn(f, cfg, lo, steps, j - 1, w0, profile);
      StepGrows(HostEnv(f), cfg, steps[j - 1], j - 1, At(f, cfg, steps, j - 1, w0, profile));
    }
  }

  // ── What a pass proves ────────────────────────────────────────

  /** Both reports that were checked were written and handed over by the guest of
      this run. The first carries the host's Reported, which differed from
      Current; the second, after the reset, Reported equal to Current. Current
      and Committed had not moved, and either they agree or host changes were
      allowed. */
  ghost predicate Shown(f: Fates, cfg: Config, steps: seq<Step>, w0: HostState, profile: Option<Profile>)
    requires |steps| == 17
  {
    var lowered, reset := At(f, cfg, steps, 4, w0, profile), At(f, cfg, steps, 10, w0, profile);
    && ReportFrom(lowered, At(f, cfg, steps, 6, w0, profile), LOWERED_REPORT)
    && ReportFrom(reset, At(f, cfg, steps, 12, w0, profile), RESET_REPORT)
    && reset.launch == lowered.launch
    && SameFloor(w0, lowered.world) && lowered.world.fw.reported != w0.fw.current
    && SameFloor(w0, reset.world) && reset.world.fw.reported == w0.fw.current
    && (w0.fw.committed == w0.fw.current || cfg.allowHostChanges)
  }

  lemma PassShows(f: Fates, cfg: Config, lo: Tcb, steps: seq<Step>, w0: HostState, profile: Option<Profile>)
    requires OneShape(f, lo, w0.fw) && PassPlan(lo, steps) && Passing(f, cfg, steps, w0, profile)
    ensures Shown(f, cfg, steps, w0, profile)
  {
    ReportSteps(lo, steps);
    ReportNames();
    GuestChecksPassed(f, cfg, lo, steps, w0, profile);
    BothReports(f, cfg, lo, steps, w0, profile, "report.bin", "request.bin", LOWERED_REPORT,
                "report_after_reset.bin", "request_after_reset.bin", RESET_REPORT);
    UpToGate(f, cfg, lo, steps, 4, w0, profile);
    UpToGate(f, cfg, lo, steps, 10, w0, profile);
    GateOpened(f, cfg, lo, steps, w0, profile);
  }

  /** What a `pass` of the test proves. Runs that pass: `WorkingHostPasses` and
      `PassesWithoutSetting`. */
  lemma PassMeansShown(f: Fates, cfg: Config, lo: Tcb, w0: HostState, profile: Option<Profile>)
    requires OneShape(f, lo, w0.fw) && Passing(f, cfg, Plan(lo), w0, profile)
    ensures Shown(f, cfg, Plan(lo), w0, profile)
  {
    PlanIsPassPlan(lo);
    PassShows(f, cfg, lo, Plan(lo), w0, profile);
  }

  // ── What it does not prove ────────────────────────────────────

  /** When Reported is Current at the start, a pass shows that the setting took
      effect: nothing else can have made them differ. */
  lemma PassNeedsSetting(f: Fates, cfg: Config, lo: Tcb, steps: seq<Step>, w0: HostState, profile: Option<Profile>)
    requires OneShape(f, lo, w0.fw) && PassPlan(lo, steps) && Passing(f, cfg, steps, w0, profile)
    requires w0.fw.reported == w0.fw.current
    ensures f.takes(w0.tick + 1)
  {
    ShowAt(f, cfg, lo, steps, w0, profile);
    SetAt(f, cfg, lo, steps, w0, profile);
    DiffersAt(f, cfg, lo, steps, w0, profile);
  }

  lemma ShowAt(f: Fates, cfg: Config, lo: Tcb, steps: seq<Step>, w0: HostState, profile: Option<Profile>)
    requires PassPlan(lo, steps) && Passing(f, cfg, steps, w0, profile)
    ensures var w1 := At(f, cfg, steps, 1, w0, profile).world; w1.fw == w0.fw && w1.tick == w0.tick + 1
  {
    assert Scripted(lo, 0, steps[0]);
    HostAt(f, cfg, lo, steps, 0, w0, profile);
    ShowSetsNothing(f, w0);
  }

  lemma SetAt(f: Fates, cfg: Config, lo: Tcb, steps: seq<Step>, w0: HostState, profile: Option<Profile>)
    requires PassPlan(lo, steps) && Passing(f, cfg, steps, w0, profile)
    ensures var w1 := At(f, cfg, steps, 1, w0, profile).world;
            !f.takes(w1.tick) ==> At(f, cfg, steps, 2, w0, profile).world.fw == w1.fw
  {
    assert Scripted(lo, 1, steps[1]);
    HostAt(f, cfg, lo, steps, 1, w0, profile);
    SetWithoutEffect(f, lo, At(f, cfg, steps, 1, w0, profile).world);
  }

  lemma DiffersAt(f: Fates, cfg: Config, lo: Tcb, steps: seq<Step>, w0: HostState, profile: Option<Profile>)
    requires OneShape(f, lo, w0.fw) && PassPlan(lo, steps) && Passing(f, cfg, steps, w0, profile)
    ensures var w2 := At(f, cfg, steps, 2, w0, profile).world; w2.fw.reported != w2.fw.current
  {
    var w2 := At(f, cfg, steps, 2, w0, profile).world;
    CheckAt(f, cfg, lo, steps, 2, w0, profile);
    FirstCheckIs(f, w2, cfg.allowHostChanges);
    UpToGate(f, cfg, lo, steps, 2, w0, profile);
    ResultPassed(f, w2, false);
  }

  lemma SetWithoutEffect(f: Fates, lo: Tcb, w: HostState)
    ensures !f.takes(w.tick) ==> Shell(f, w, ConfigSet(lo, 0)).0.fw == w.fw
  {
    SetIsNoReset(lo);
  }

  lemma FirstCheckIs(f: Fates, w: HostState, allow: bool)
    ensures HandlerAt(f, w, 2, allow) == VerifyResult(f, w, false)
  {
  }

  const SPACE: Blank := " "

  /** Everything works, except that the command at tick `miss` has no effect. */
  function AllBut(c: Tcb, miss: nat): Fates {
    Fates(
      k => ShellExits(0, "", ""),
      k => k != miss,
      k => Some(c),
      k => false,
      k => Ready(1),
      k => Stopped,
      k => JournalDone,
      k => VsockReply(0, "", ""),
      k => Pulled,
      k => Tool.Works,
      k => (section, field) => (SPACE, SPACE),
      k => [],
      k => false,
      k => "")
  }

  /** On a committed host whose Reported is not Current, as an interrupted run
      leaves it, all steps pass although the setting has no effect. */
  lemma PassesWithoutSetting(cfg: Config, lo: Tcb, w0: HostState, profile: Profile)
    requires w0.fw.committed == w0.fw.current && SameShape(w0.fw.reported, w0.fw.current)
    requires w0.fw.reported != w0.fw.current
    ensures var f := AllBut(w0.fw.current, w0.tick + 1);
            Passing(f, cfg, Plan(lo), w0, Some(profile)) && !f.takes(w0.tick + 1)
  {
    var f := AllBut(w0.fw.current, w0.tick + 1);
    CourseEnds(f, Course(w0.fw.current, lo, w0.fw.reported, w0.fw.reported, w0.tick), cfg, w0, profile);
  }

  /** On a committed host, every passing run's `config set` took effect iff
      Reported was Current at the start. */
  lemma SettingShownExactly(cfg: Config, lo: Tcb, w0: HostState, profile: Profile)
    requires w0.fw.committed == w0.fw.current && SameShape(w0.fw.reported, w0.fw.current)
    requires Lower(w0.fw.current) == Some(lo)
    ensures (forall f | OneShape(f, lo, w0.fw) && Passing(f, cfg, Plan(lo), w0, Some(profile)) :: f.takes(w0.tick + 1))
            <==> w0.fw.reported == w0.fw.current
  {
    LowerIsOneStepDown(w0.fw.current);
    if w0.fw.reported == w0.fw.current {
      PlanIsPassPlan(lo);
      forall f | OneShape(f, lo, w0.fw) && Passing(f, cfg, Plan(lo), w0, Some(profile))
        ensures f.takes(w0.tick + 1)
      {
        PassNeedsSetting(f, cfg, lo, Plan(lo), w0, Some(profile));
      }
    } else {
      PassesWithoutSetting(cfg, lo, w0, profile);
      assert OneShape(AllBut(w0.fw.current, w0.tick + 1), lo, w0.fw);
    }
  }
}
