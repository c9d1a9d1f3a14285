/** What no run of the config/commit test can do: when the anti-rollback floor
    (CommittedTcb) moves, and when ReportedTcb is left overridden. */
module ConfigCommitSafety {
  import opened Prelude
  import opened Models
  import opened Runner
  import opened Machine
  import opened RunProperties
  import opened TcbText
  import opened TcbValues
  import opened ConfigCommit

  // ── Reading the printed TCBs back ─────────────────────────────

  lemma ListedRead(f: Fates, k: nat, secs: seq<Section>, i: nat)
    requires i < |secs|
    requires forall n | 0 <= n < |secs| :: SectionOk(secs[n])
    requires forall m, n | 0 <= m < n < |secs| :: secs[m].name != secs[n].name
    ensures var read := ParseSections(Listed(f, k, secs));
            secs[i].name in read && read[secs[i].name] == FieldsOf(secs[i].fields)
  {
    var pre := f.preamble(k);
    forall n | 0 <= n < |pre|
      ensures OneLine(pre[n]) && MatchHeader(pre[n]).None?
    {
      var line: NoHeader := pre[n];
    }
    ParseInvertsPrint(f.layout(k), pre, secs);
    SectionsDistinct(map[], secs, i);
  }

  /** `snphost show tcb`, printed and parsed, is the firmware's own TCBs. */
  lemma ShowRead(f: Fates, k: nat, fw: Firmware)
    ensures var read := ParseSections(Listed(f, k, ShowSections(f, k, fw)));
            && "Reported" in read && read["Reported"] == Listing(fw.reported, f.showNone(k))
            && "Platform" in read && read["Platform"] == Listing(fw.current, f.showNone(k))
  {
    var secs := ShowSections(f, k, fw);
    TcbFieldsOk(fw.reported, f.showNone(k), "Reported");
    TcbFieldsOk(fw.current, f.showNone(k), "Platform");
    assert "Reported"[0] != "Platform"[0];
    ListedRead(f, k, secs, 0);
    ListedRead(f, k, secs, 1);
  }

  lemma ReportSectionsOk(f: Fates, k: nat, r: Report)
    ensures var secs := ReportSections(f, k, r);
            && (forall n | 0 <= n < |secs| :: SectionOk(secs[n]))
            && (forall m, n | 0 <= m < n < |secs| :: secs[m].name != secs[n].name)
  {
    TcbFieldsOk(r.current, f.showNone(k), "Current");
    TcbFieldsOk(r.committed, f.showNone(k), "Committed");
    TcbFieldsOk(r.reported, f.showNone(k), "Reported");
    NamesDiffer();
    var secs := ReportSections(f, k, r);
    ThreeSections(secs[0], secs[1], secs[2]);
  }

  lemma NamesDiffer()
    ensures "Current" != "Committed" && "Current" != "Reported" && "Committed" != "Reported"
  {
    assert "Current"[1] != "Committed"[1] && "Current"[0] != "Reported"[0] && "Committed"[0] != "Reported"[0];
  }

  lemma ThreeSections(a: Section, b: Section, c: Section)
    requires SectionOk(a) && SectionOk(b) && SectionOk(c)
    requires a.name != b.name && a.name != c.name && b.name != c.name
    ensures var secs := [a, b, c];
            && (forall n | 0 <= n < 3 :: SectionOk(secs[n]))
            && (forall m, n | 0 <= m < n < 3 :: secs[m].name != secs[n].name)
  {
  }

  /** `snpguest display report`, printed and parsed, is the report's TCBs. */
  lemma ReportRead(f: Fates, k: nat, r: Report)
    ensures var read := ParseSections(Listed(f, k, ReportSections(f, k, r)));
            && "Current" in read && read["Current"] == Listing(r.current, f.showNone(k))
            && "Committed" in read && read["Committed"] == Listing(r.committed, f.showNone(k))
            && "Reported" in read && read["Reported"] == Listing(r.reported, f.showNone(k))
  {
    var secs := ReportSections(f, k, r);
    ReportSectionsOk(f, k, r);
    ListedRead(f, k, secs, 0);
    ListedRead(f, k, secs, 1);
    ListedRead(f, k, secs, 2);
  }

  /** The gate opens iff the pulled report can be read and either its Committed
      and Current TCBs agree or host changes are allowed; it raises iff there is
      a report and it cannot be read. */
  lemma GateDecides(f: Fates, w: HostState, allow: bool)
    ensures Gate(f, w, allow).1 == Exit(0) <==>
              && RESET_REPORT in w.hostFiles
              && f.tool(w.tick).Works?
              && var r := w.hostFiles[RESET_REPORT];
                 (allow || Agree(r.committed, f.showNone(w.tick), r.current, f.showNone(w.tick)))
    ensures Gate(f, w, allow).1.HandlerErrs? <==> RESET_REPORT in w.hostFiles && !f.tool(w.tick).Works?
    ensures Gate(f, w, allow).1.HandlerReturns? ==> Gate(f, w, allow).1 in {Exit(0), Exit(1)}
  {
    if RESET_REPORT in w.hostFiles {
      var r := w.hostFiles[RESET_REPORT];
      ReportRead(f, w.tick, r);
      MatchDecides(r.committed, f.showNone(w.tick), r.current, f.showNone(w.tick));
    }
  }

  // ── What each step leaves alone ───────────────────────────────

  const COMMIT_HANDLER := "commit_current_tcb"
  const GATE_HANDLER := "verify_committed_equals_current"

  lemma StopTicks(f: Fates, i: nat, l: Launch, st: RunState<HostState>)
    ensures var st' := Stop(HostEnv(f), i, l, st).0;
            st'.world == st.world.Next() && st'.launch == st.launch && st'.results == st.results
  {
  }

  lemma CallTicks(f: Fates, cfg: Config, step: Step, i: nat, st: RunState<HostState>)
    requires step.kind.Callable? && step.kind.handler != COMMIT_HANDLER
    ensures var e := CallStep(HostEnv(f), cfg, step, i, st);
            OnlyTicks(st.world, e.st.world) && e.st.launch == st.launch
  {
  }

  ghost predicate Fresh(w0: HostState, r: Report) {
    r.committed == w0.fw.committed && r.current == w0.fw.current
  }

  ghost predicate FreshFile(w0: HostState, w: HostState, file: string) {
    file in w.hostFiles && Fresh(w0, w.hostFiles[file])
  }

  ghost predicate SameFloor(w0: HostState, w: HostState) {
    w.fw.current == w0.fw.current && w.fw.committed == w0.fw.committed && w.commits == w0.commits
  }

  /** Before any commit: the floor has not moved, a running guest holds fresh
      reports only, and host files are fresh or were there from the start. */
  ghost predicate Uncommitted(w0: HostState, st: RunState<HostState>) {
    && SameFloor(w0, st.world)
    && (st.launch.Some? ==> forall file <- st.world.guestFiles :: Fresh(w0, st.world.guestFiles[file]))
    && forall file <- st.world.hostFiles ::
         Fresh(w0, st.world.hostFiles[file])
         || (file in w0.hostFiles && st.world.hostFiles[file] == w0.hostFiles[file])
  }

  ghost predicate KeepsFresh(w0: HostState, w: HostState, w': HostState) {
    forall file :: FreshFile(w0, w, file) ==> FreshFile(w0, w', file)
  }

  lemma BootKeeps(f: Fates, w0: HostState, i: nat, p: Profile, st: RunState<HostState>)
    requires Uncommitted(w0, st)
    ensures Uncommitted(w0, Start(HostEnv(f), i, p, st).0)
    ensures KeepsFresh(w0, st.world, Start(HostEnv(f), i, p, st).0.world)
  {
  }

  lemma OnGuestKeeps(f: Fates, w0: HostState, step: Step, i: nat, l: Launch, st: RunState<HostState>)
    requires step.kind.Guest? || step.kind.GuestPull?
    requires Uncommitted(w0, st) && st.launch.Some?
    ensures var e := OnGuest(HostEnv(f), step, i, l, st);
            && Uncommitted(w0, e.st)
            && KeepsFresh(w0, st.world, e.st.world)
            && (e.Done? && e.sr.status.Pass? && step.kind.GuestPull? ==> FreshFile(w0, e.st.world, step.kind.hostDest))
  {
  }

  lemma GuestKeeps(f: Fates, w0: HostState, step: Step, i: nat, st: RunState<HostState>)
    requires step.kind.Guest? || step.kind.GuestPull?
    requires Uncommitted(w0, st)
    ensures var e := GuestStep(HostEnv(f), step, i, st);
            && Uncommitted(w0, e.st)
            && KeepsFresh(w0, st.world, e.st.world)
            && (e.Done? && e.sr.status.Pass? && step.kind.GuestPull? ==> FreshFile(w0, e.st.world, step.kind.hostDest))
  {
    if st.profile.Some? {
      if st.launch.Some? {
        OnGuestKeeps(f, w0, step, i, st.launch.value, st);
      } else {
        BootKeeps(f, w0, i, st.profile.value, st);
        var (st1, out) := Start(HostEnv(f), i, st.profile.value, st);
        if out.LaunchReturns? {
          OnGuestKeeps(f, w0, step, i, out.launch, st1);
        }
      }
    }
  }

  lemma StopKeeps(f: Fates, cfg: Config, w0: HostState, step: Step, i: nat, st: RunState<HostState>)
    requires Uncommitted(w0, st)
    ensures Uncommitted(w0, StopStep(HostEnv(f), cfg, step, i, st).st)
    ensures KeepsFresh(w0, st.world, StopStep(HostEnv(f), cfg, step, i, st).st.world)
  {
    if st.launch.Some? {
      var l := st.launch.value;
      var st1 := if cfg.debug then st.(world := HostEnv(f).journal(st.world, l).0).Did(i, AJournal(l)) else st;
      assert HostEnv(f).journal(st.world, l).0 == st.world.Next();
      StopTicks(f, i, l, st1);
    }
  }

  lemma LaunchKeeps(f: Fates, cfg: Config, w0: HostState, step: Step, i: nat, st: RunState<HostState>)
    requires step.kind.VmLaunch? && Uncommitted(w0, st)
    ensures Uncommitted(w0, LaunchStep(HostEnv(f), cfg, step, i, st).st)
    ensures KeepsFresh(w0, st.world, LaunchStep(HostEnv(f), cfg, step, i, st).st.world)
  {
    if st.profile.Some? && st.launch.None? {
      var p := LaunchProfile(HostEnv(f), cfg, step.kind.guestId, st.profile.value, st.world);
      BootKeeps(f, w0, i, p, st.(profile := Some(p)));
    }
  }

  lemma HostKeeps(f: Fates, w0: HostState, step: Step, i: nat, st: RunState<HostState>)
    requires step.kind.Host? && Uncommitted(w0, st)
    ensures Uncommitted(w0, HostStep(HostEnv(f), step, i, st).st)
    ensures KeepsFresh(w0, st.world, HostStep(HostEnv(f), step, i, st).st.world)
  {
    assert HostEnv(f).shell(st.world, step.kind.command) == Shell(f, st.world, step.kind.command);
  }

  /** No step but the commit moves the floor; a pull that passes leaves a fresh
      report, and fresh files stay fresh. */
  lemma StepKeeps(f: Fates, cfg: Config, w0: HostState, step: Step, i: nat, st: RunState<HostState>)
    requires Uncommitted(w0, st) && step.kind != Callable(COMMIT_HANDLER)
    ensures var e := ExecStep(HostEnv(f), cfg, step, i, st);
            && Uncommitted(w0, e.st)
            && KeepsFresh(w0, st.world, e.st.world)
            && (e.Done? && e.sr.status.Pass? && step.kind.GuestPull? ==> FreshFile(w0, e.st.world, step.kind.hostDest))
  {
    match step.kind
    case VmLaunch(_) => LaunchKeeps(f, cfg, w0, step, i, st);
    case VmStop => StopKeeps(f, cfg, w0, step, i, st);
    case Host(_) => HostKeeps(f, w0, step, i, st);
    case Callable(_) => CallTicks(f, cfg, step, i, st);
    case _ => GuestKeeps(f, w0, step, i, st);
  }

  // ── The floor ─────────────────────────────────────────────────

  predicate PassedAt(rs: seq<StepResult>, j: nat) {
    j < |rs| && rs[j].status.Pass?
  }

  /** The report at hand reads as that of committed firmware. */
  predicate ReadsCommitted(r: Report) {
    Agree(r.committed, false, r.current, false)
  }

  /** A report from an earlier run that would open the gate. */
  predicate StaleReport(w0: HostState) {
    RESET_REPORT in w0.hostFiles && ReadsCommitted(w0.hostFiles[RESET_REPORT])
  }

  /** What an open gate tells about the run so far. */
  predicate GateExcuse(cfg: Config, w0: HostState, rs: seq<StepResult>) {
    || w0.fw.committed == w0.fw.current
    || cfg.allowHostChanges
    || (StaleReport(w0) && !PassedAt(rs, PULL_RESET_STEP))
  }

  ghost predicate FloorInv(cfg: Config, w0: HostState, j: nat, st: RunState<HostState>) {
    && |st.results| == j <= 17
    && (j <= COMMIT_STEP ==> Uncommitted(w0, st))
    && (PULL_RESET_STEP < j <= COMMIT_STEP && PassedAt(st.results, PULL_RESET_STEP) ==>
        FreshFile(w0, st.world, RESET_REPORT))
    && (j >= COMMIT_STEP ==> PassedAt(st.results, GATE_STEP) && GateExcuse(cfg, w0, st.results))
    && (j > COMMIT_STEP ==> FloorMoved(w0, st.world))
  }

  ghost predicate FloorMoved(w0: HostState, w: HostState) {
    && w.fw.current == w0.fw.current
    && w0.commits <= w.commits
    && w.fw.committed == if w.commits > w0.commits then w0.fw.current else w0.fw.committed
  }

  /** The claim about a finished run. */
  ghost predicate FloorClaim(cfg: Config, w0: HostState, out: Outcome<HostState>) {
    && FloorMoved(w0, out.st.world)
    && (out.st.world.commits > w0.commits ==>
          PassedAt(out.st.results, GATE_STEP) && GateExcuse(cfg, w0, out.st.results))
  }

  /** A failed gate halts the run; a passed gate has its excuse. */
  lemma GateStepPasses(f: Fates, cfg: Config, step: Step, i: nat, st: RunState<HostState>)
    requires step.kind == Callable(GATE_HANDLER) && step.expected == OK
    ensures var e := ExecStep(HostEnv(f), cfg, step, i, st);
            && e.Done?
            && (e.sr.status.Pass? <==> Gate(f, st.world, cfg.allowHostChanges).1 == Exit(0))
            && (e.sr.status.Pass? <==> !e.sr.Bad())
            && e.st.world == Gate(f, st.world, cfg.allowHostChanges).0
  {
    var view := ViewOf(cfg, st);
    assert Call(f, st.world, GATE_HANDLER, view) == Gate(f, st.world, cfg.allowHostChanges);
    assert HostEnv(f).call(st.world, GATE_HANDLER, view).2 == Gate(f, st.world, cfg.allowHostChanges).1;
    GateDecides(f, st.world, cfg.allowHostChanges);
  }

  lemma OpenGateExcused(f: Fates, cfg: Config, w0: HostState, st: RunState<HostState>)
    requires SameShape(w0.fw.committed, w0.fw.current)
    requires FloorInv(cfg, w0, GATE_STEP, st)
    requires Gate(f, st.world, cfg.allowHostChanges).1 == Exit(0)
    ensures GateExcuse(cfg, w0, st.results)
  {
    GateDecides(f, st.world, cfg.allowHostChanges);
    var r := st.world.hostFiles[RESET_REPORT];
    assert Fresh(w0, r) || r == w0.hostFiles[RESET_REPORT];
  }

  /** The facts about the plan that the floor rests on. */
  ghost predicate FloorPlan(steps: seq<Step>) {
    && |steps| == 17
    && (forall j | 0 <= j < GATE_STEP :: steps[j].kind != Callable(COMMIT_HANDLER))
    && steps[PULL_RESET_STEP].kind.GuestPull? && steps[PULL_RESET_STEP].kind.hostDest == RESET_REPORT
    && steps[GATE_STEP].kind == Callable(GATE_HANDLER) && steps[GATE_STEP].expected == OK
        && steps[GATE_STEP].severity.Setup?
    && steps[COMMIT_STEP].kind == Callable(COMMIT_HANDLER) && !steps[COMMIT_STEP].severity.Setup?
  }

  lemma PlanIsFloorPlan(lo: Tcb)
    ensures FloorPlan(Plan(lo))
  {
  }

  lemma GateStepKeeps(f: Fates, cfg: Config, step: Step, w0: HostState, st: RunState<HostState>)
    requires SameShape(w0.fw.committed, w0.fw.current)
    requires FloorInv(cfg, w0, GATE_STEP, st)
    requires step.kind == Callable(GATE_HANDLER) && step.expected == OK
    ensures var e := ExecStep(HostEnv(f), cfg, step, GATE_STEP, st);
            && Uncommitted(w0, e.st)
            && (e.Done? && !e.sr.Bad() ==> FloorInv(cfg, w0, COMMIT_STEP, e.st.Append(e.sr)))
  {
    StepKeeps(f, cfg, w0, step, GATE_STEP, st);
    StepGrows(HostEnv(f), cfg, step, GATE_STEP, st);
    GateStepPasses(f, cfg, step, GATE_STEP, st);
    var e := ExecStep(HostEnv(f), cfg, step, GATE_STEP, st);
    if !e.sr.Bad() {
      OpenGateExcused(f, cfg, w0, st);
      var rs := st.results + [e.sr];
      assert rs[GATE_STEP] == e.sr && rs[PULL_RESET_STEP] == st.results[PULL_RESET_STEP];
    }
  }

  lemma CommitOnFirmware(f: Fates, cfg: Config, step: Step, i: nat, st: RunState<HostState>)
    requires step.kind == Callable(COMMIT_HANDLER)
    ensures var e := ExecStep(HostEnv(f), cfg, step, i, st);
            && e.Done? && e.st.world == Commit(f, st.world).0
            && e.st.results == st.results
            && e.sr == CallResult(step, Commit(f, st.world).1)
  {
    var view := ViewOf(cfg, st);
    assert Call(f, st.world, COMMIT_HANDLER, view) == Commit(f, st.world);
    assert HostEnv(f).call(st.world, COMMIT_HANDLER, view).0 == Commit(f, st.world).0;
    assert HostEnv(f).call(st.world, COMMIT_HANDLER, view).2 == Commit(f, st.world).1;
  }

  lemma CommitStepKeeps(f: Fates, cfg: Config, step: Step, w0: HostState, st: RunState<HostState>)
    requires FloorInv(cfg, w0, COMMIT_STEP, st)
    requires step.kind == Callable(COMMIT_HANDLER)
    ensures var e := ExecStep(HostEnv(f), cfg, step, COMMIT_STEP, st);
            e.Done? && FloorInv(cfg, w0, 17, e.st.Append(e.sr))
  {
    CommitOnFirmware(f, cfg, step, COMMIT_STEP, st);
    var e := ExecStep(HostEnv(f), cfg, step, COMMIT_STEP, st);
    var rs := st.results + [e.sr];
    assert rs[GATE_STEP] == st.results[GATE_STEP] && rs[PULL_RESET_STEP] == st.results[PULL_RESET_STEP];
  }

  lemma OtherStepKeeps(f: Fates, cfg: Config, step: Step, w0: HostState, j: nat, st: RunState<HostState>)
    requires j < GATE_STEP && FloorInv(cfg, w0, j, st)
    requires step.kind != Callable(COMMIT_HANDLER)
    requires j == PULL_RESET_STEP ==> step.kind.GuestPull? && step.kind.hostDest == RESET_REPORT
    ensures var e := ExecStep(HostEnv(f), cfg, step, j, st);
            && Uncommitted(w0, e.st)
            && (e.Done? ==> FloorInv(cfg, w0, j + 1, e.st.Append(e.sr)))
  {
    StepKeeps(f, cfg, w0, step, j, st);
    StepGrows(HostEnv(f), cfg, step, j, st);
    var e := ExecStep(HostEnv(f), cfg, step, j, st);
    if e.Done? {
      var rs := st.results + [e.sr];
      assert rs[j] == e.sr;
      if j > PULL_RESET_STEP {
        assert rs[PULL_RESET_STEP] == st.results[PULL_RESET_STEP];
      }
    }
  }

  lemma FloorStep(f: Fates, cfg: Config, steps: seq<Step>, w0: HostState, j: nat, st: RunState<HostState>)
    requires SameShape(w0.fw.committed, w0.fw.current) && FloorPlan(steps)
    requires j < 17 && FloorInv(cfg, w0, j, st)
    ensures var e := ExecStep(HostEnv(f), cfg, steps[j], j, st);
            && (e.Raised? ==> Uncommitted(w0, e.st))
            && (e.Done? && j <= GATE_STEP ==> Uncommitted(w0, e.st))
            && (e.Done? && !(e.sr.Bad() && steps[j].severity.Setup?) ==> FloorInv(cfg, w0, j + 1, e.st.Append(e.sr)))
  {
    if j < GATE_STEP {
      OtherStepKeeps(f, cfg, steps[j], w0, j, st);
    } else if j == GATE_STEP {
      GateStepKeeps(f, cfg, steps[j], w0, st);
    } else {
      CommitStepKeeps(f, cfg, steps[j], w0, st);
    }
  }

  lemma FloorTurn(env: Env<HostState>, cfg: Config, steps: seq<Step>, w0: HostState, j: nat,
                  st: RunState<HostState>, overall: Status, e: Exec<HostState>)
    requires FloorPlan(steps) && j < 17
    requires e == ExecStep(env, cfg, steps[j], j, st)
    requires e.Raised? ==> Uncommitted(w0, e.st)
    requires e.Done? && j <= GATE_STEP ==> Uncommitted(w0, e.st)
    requires e.Done? && !(e.sr.Bad() && steps[j].severity.Setup?) ==>
               FloorClaim(cfg, w0,
                   Loop(env, cfg, steps, j + 1, e.st.Append(e.sr), NextOverall(steps[j], e.sr, overall)))
    ensures FloorClaim(cfg, w0, Loop(env, cfg, steps, j, st, overall))
  {
  }

  lemma {:induction false} LoopKeepsFloor(f: Fates, cfg: Config, steps: seq<Step>, w0: HostState, j: nat,
                                          st: RunState<HostState>, overall: Status)
    requires SameShape(w0.fw.committed, w0.fw.current) && FloorPlan(steps)
    requires j <= 17 && FloorInv(cfg, w0, j, st)
    ensures FloorClaim(cfg, w0, Loop(HostEnv(f), cfg, steps, j, st, overall))
    decreases 17 - j
  {
    if j < 17 {
      var env := HostEnv(f);
      var e := ExecStep(env, cfg, steps[j], j, st);
      FloorStep(f, cfg, steps, w0, j, st);
      if e.Done? && !(e.sr.Bad() && steps[j].severity.Setup?) {
        LoopKeepsFloor(f, cfg, steps, w0, j + 1, e.st.Append(e.sr), NextOverall(steps[j], e.sr, overall));
      }
      FloorTurn(env, cfg, steps, w0, j, st, overall, e);
    } else {
      FloorEnds(cfg, w0, st, overall);
    }
  }

  lemma FloorEnds(cfg: Config, w0: HostState, st: RunState<HostState>, overall: Status)
    requires FloorInv(cfg, w0, 17, st)
    ensures FloorClaim(cfg, w0, Outcome(st, Verdict(overall)))
  {
  }

  /** The final teardown leaves firmware, files and results alone. */
  lemma TeardownTicks(f: Fates, n: nat, out: Outcome<HostState>)
    ensures OnlyTicks(out.st.world, Finally(HostEnv(f), n, out).st.world)
    ensures Finally(HostEnv(f), n, out).st.results == out.st.results
  {
    if out.st.launch.Some? {
      StopTicks(f, n, out.st.launch.value, out.st);
    }
  }

  /** Commit safety, for every run of the plan under every pattern of failures:
      Current never changes; Committed changes only by a commit that takes
      effect, to Current; and a commit takes effect only after the gate passed,
      which on provisional firmware means that host changes were allowed or
      that the gate was shown a report left over from an earlier run. */
  lemma CommitSafety(f: Fates, cfg: Config, lo: Tcb, w0: HostState, profile: Option<Profile>)
    requires SameShape(w0.fw.committed, w0.fw.current)
    ensures FloorClaim(cfg, w0, ExecuteTest(HostEnv(f), cfg, Plan(lo), w0, profile))
  {
    PlanIsFloorPlan(lo);
    LoopKeepsFloor(f, cfg, Plan(lo), w0, 0, Initial(w0, profile), Pass);
    TeardownTicks(f, 17, Loop(HostEnv(f), cfg, Plan(lo), 0, Initial(w0, profile), Pass));
  }

  /** Without `--allow-host-changes` and without a stale report the floor stays
      where it was; and in no run does it go down. */
  lemma FloorUnchanged(f: Fates, cfg: Config, lo: Tcb, w0: HostState, profile: Option<Profile>)
    requires SameShape(w0.fw.committed, w0.fw.current)
    ensures var out := ExecuteTest(HostEnv(f), cfg, Plan(lo), w0, profile);
            && (AtMost(w0.fw.committed, w0.fw.current) ==> AtMost(w0.fw.committed, out.st.world.fw.committed))
            && (!cfg.allowHostChanges && (!StaleReport(w0) || PassedAt(out.st.results, PULL_RESET_STEP))
                ==> out.st.world.fw.committed == w0.fw.committed)
  {
    CommitSafety(f, cfg, lo, w0, profile);
  }
}
