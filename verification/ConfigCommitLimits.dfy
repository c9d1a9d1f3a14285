/** Where the gate of the config/commit test stops protecting the anti-rollback
    floor: the exact condition. */
module ConfigCommitLimits {
  import opened Prelude
  import opened Models
  import opened Machine
  import opened TcbText
  import opened TcbValues
  import opened ConfigCommit
  import opened ConfigCommitSafety
  import opened ConfigCommitRuns
  import opened ConfigCommitComplete

  const SPACE: Blank := " "

  /** Host commands and tools work, but no guest can be started. */
  function NoGuest(): Fates {
    Fates(
      k => ShellExits(0, "", ""),
      k => true,
      k => None,
      k => false,
      k => Invalid("cannot launch"),
      k => Stopped,
      k => JournalDone,
      k => VsockFails("no guest"),
      k => PullFails("no guest"),
      k => Tool.Works,
      k => (section, field) => (SPACE, SPACE),
      k => [],
      k => false,
      k => "")
  }

  /** All that the proof uses of these fates. */
  ghost predicate Guestless(f: Fates) {
    forall k ::
      && f.shell(k) == ShellExits(0, "", "")
      && f.boot(k).Invalid?
      && f.takes(k)
      && f.tool(k).Works?
      && !f.showNone(k)
  }

  /** The state before step `j` of a run without a guest. */
  ghost predicate Adrift(w0: HostState, j: nat, st: RunState<HostState>) {
    && |st.results| == j
    && st.launch.None?
    && StillAdrift(w0, st.world)
  }

  ghost predicate StillAdrift(w0: HostState, w: HostState) {
    SameFloor(w0, w) && w.hostFiles == w0.hostFiles
  }

  /** Steps before the gate that keep a run adrift. */
  predicate Harmless(step: Step) {
    step.expected == OK && step.kind != Callable(COMMIT_HANDLER)
  }

  /** The step ends, and the run is still adrift. */
  ghost predicate Drifts(w0: HostState, st: RunState<HostState>, e: Exec<HostState>) {
    && e.Done?
    && e.st.results == st.results
    && e.st.launch.None?
    && StillAdrift(w0, e.st.world)
  }

  lemma NoStart(f: Fates, w0: HostState, i: nat, p: Profile, st: RunState<HostState>)
    requires Guestless(f) && st.launch.None? && StillAdrift(w0, st.world)
    ensures var (st', out) := Start(HostEnv(f), i, p, st);
            && out.LaunchRaises? && st'.launch.None? && st'.results == st.results
            && StillAdrift(w0, st'.world)
  {
  }

  lemma NoGuestStep(f: Fates, w0: HostState, step: Step, i: nat, st: RunState<HostState>)
    requires Guestless(f) && st.launch.None? && StillAdrift(w0, st.world)
    requires step.kind.Guest? || step.kind.GuestPull?
    ensures Drifts(w0, st, GuestStep(HostEnv(f), step, i, st))
  {
    if st.profile.Some? {
      NoStart(f, w0, i, st.profile.value, st);
    }
  }

  lemma NoLaunchStep(f: Fates, cfg: Config, w0: HostState, step: Step, i: nat, st: RunState<HostState>)
    requires Guestless(f) && st.launch.None? && StillAdrift(w0, st.world)
    requires step.kind.VmLaunch?
    ensures Drifts(w0, st, LaunchStep(HostEnv(f), cfg, step, i, st))
  {
    if st.profile.Some? {
      var p := LaunchProfile(HostEnv(f), cfg, step.kind.guestId, st.profile.value, st.world);
      NoStart(f, w0, i, p, st.(profile := Some(p)));
    }
  }

  lemma AdriftStep(f: Fates, cfg: Config, w0: HostState, step: Step, j: nat, st: RunState<HostState>)
    requires Guestless(f) && Adrift(w0, j, st) && Harmless(step)
    ensures var e := ExecStep(HostEnv(f), cfg, step, j, st);
            Drifts(w0, st, e) && (step.kind.Host? ==> e.sr.status.Pass?)
  {
    match step.kind
    case Host(_) => ShellOnFirmware(f, cfg, step, j, st);
    case Callable(_) => CallTicks(f, cfg, step, j, st);
    case VmStop =>
    case VmLaunch(_) => NoLaunchStep(f, cfg, w0, step, j, st);
    case _ => NoGuestStep(f, w0, step, j, st);
  }

  ghost predicate AdriftPlan(steps: seq<Step>) {
    && PlanShape(steps)
    && (forall j | 0 <= j < GATE_STEP :: Harmless(steps[j]))
    && steps[0].kind.Host?
    && steps[GATE_STEP].kind == Callable(GATE_HANDLER) && steps[GATE_STEP].expected == OK
    && steps[COMMIT_STEP].expected == OK
  }

  lemma PlanIsAdriftPlan(lo: Tcb)
    ensures AdriftPlan(Plan(lo))
  {
    PlanHasShape(lo);
  }

  lemma OpensOnStale(f: Fates, w0: HostState, w: HostState, allow: bool)
    requires StillAdrift(w0, w) && StaleReport(w0) && Guestless(f)
    ensures Gate(f, w, allow).1 == Exit(0)
  {
    GateDecides(f, w, allow);
  }

  /** The gate opens on the stale report. */
  lemma GateOpens(f: Fates, cfg: Config, w0: HostState, step: Step, st: RunState<HostState>)
    requires Guestless(f) && Adrift(w0, GATE_STEP, st) && StaleReport(w0)
    requires step.kind == Callable(GATE_HANDLER) && step.expected == OK
    ensures var e := ExecStep(HostEnv(f), cfg, step, GATE_STEP, st);
            Drifts(w0, st, e) && e.sr.status.Pass?
  {
    OpensOnStale(f, w0, st.world, cfg.allowHostChanges);
    CallAt(f, st.world, GATE_STEP, ViewOf(cfg, st));
    CallWorks(f, cfg, step, GATE_STEP, st);
  }

  lemma CommitAdvances(f: Fates, cfg: Config, w0: HostState, steps: seq<Step>, st: RunState<HostState>)
    requires Guestless(f) && Adrift(w0, COMMIT_STEP, st) && AdriftPlan(steps)
    ensures var e := ExecStep(HostEnv(f), cfg, steps[COMMIT_STEP], COMMIT_STEP, st);
            e.Done? && e.st.world.fw.committed == w0.fw.current
  {
    CommitOnFirmware(f, cfg, steps[COMMIT_STEP], COMMIT_STEP, st);
  }

  ghost predicate Advanced(w0: HostState, out: Outcome<HostState>) {
    out.finish.Verdict? && out.st.world.fw.committed == w0.fw.current
  }

  lemma EndAdvances(env: Env<HostState>, cfg: Config, steps: seq<Step>, w0: HostState, st: RunState<HostState>,
                    overall: Status)
    requires |steps| == 17 && st.world.fw.committed == w0.fw.current
    ensures Advanced(w0, Loop(env, cfg, steps, 17, st, overall))
  {
  }

  lemma TurnAdvances(env: Env<HostState>, cfg: Config, steps: seq<Step>, w0: HostState, j: nat,
                     st: RunState<HostState>, overall: Status, e: Exec<HostState>)
    requires AdriftPlan(steps) && j < 17
    requires e == ExecStep(env, cfg, steps[j], j, st) && e.Done?
    requires !(e.sr.Bad() && steps[j].severity.Setup?)
    requires Advanced(w0, Loop(env, cfg, steps, j + 1, e.st.Append(e.sr), NextOverall(steps[j], e.sr, overall)))
    ensures Advanced(w0, Loop(env, cfg, steps, j, st, overall))
  {
  }

  lemma StepAdrift(f: Fates, cfg: Config, steps: seq<Step>, w0: HostState, j: nat, st: RunState<HostState>)
    requires Guestless(f) && AdriftPlan(steps) && StaleReport(w0)
    requires j <= GATE_STEP && Adrift(w0, j, st)
    ensures var e := ExecStep(HostEnv(f), cfg, steps[j], j, st);
            Drifts(w0, st, e) && !(e.sr.Bad() && steps[j].severity.Setup?)
  {
    if j == GATE_STEP {
      GateOpens(f, cfg, w0, steps[j], st);
    } else {
      AdriftStep(f, cfg, w0, steps[j], j, st);
    }
  }

  lemma CommitTurn(f: Fates, cfg: Config, steps: seq<Step>, w0: HostState, st: RunState<HostState>, overall: Status)
    requires Guestless(f) && AdriftPlan(steps) && Adrift(w0, COMMIT_STEP, st)
    ensures Advanced(w0, Loop(HostEnv(f), cfg, steps, COMMIT_STEP, st, overall))
  {
    var env, j := HostEnv(f), COMMIT_STEP;
    var e := ExecStep(env, cfg, steps[j], j, st);
    CommitAdvances(f, cfg, w0, steps, st);
    EndAdvances(env, cfg, steps, w0, e.st.Append(e.sr), NextOverall(steps[j], e.sr, overall));
    TurnAdvances(env, cfg, steps, w0, j, st, overall, e);
  }

  lemma DriftsOn(w0: HostState, j: nat, st: RunState<HostState>, e: Exec<HostState>)
    requires Adrift(w0, j, st) && Drifts(w0, st, e)
    ensures Adrift(w0, j + 1, e.st.Append(e.sr))
  {
  }

  lemma {:induction false} AdriftAdvances(f: Fates, cfg: Config, steps: seq<Step>, w0: HostState, j: nat,
                                          st: RunState<HostState>, overall: Status)
    requires Guestless(f) && AdriftPlan(steps) && StaleReport(w0)
    requires j <= COMMIT_STEP && Adrift(w0, j, st)
    ensures Advanced(w0, Loop(HostEnv(f), cfg, steps, j, st, overall))
    decreases 17 - j
  {
    if j == COMMIT_STEP {
      CommitTurn(f, cfg, steps, w0, st, overall);
    } else {
      var env := HostEnv(f);
      var e := ExecStep(env, cfg, steps[j], j, st);
      StepAdrift(f, cfg, steps, w0, j, st);
      DriftsOn(w0, j, st, e);
      AdriftAdvances(f, cfg, steps, w0, j + 1, e.st.Append(e.sr), NextOverall(steps[j], e.sr, overall));
      TurnAdvances(env, cfg, steps, w0, j, st, overall, e);
    }
  }

  lemma StaleReportAdvancesFloor(cfg: Config, lo: Tcb, w0: HostState, profile: Option<Profile>)
    requires StaleReport(w0)
    ensures ExecuteTest(HostEnv(NoGuest()), cfg, Plan(lo), w0, profile).st.world.fw.committed == w0.fw.current
  {
    PlanIsAdriftPlan(lo);
    AdriftAdvances(NoGuest(), cfg, Plan(lo), w0, 0, Initial(w0, profile), Pass);
    TeardownTicks(NoGuest(), 17, Loop(HostEnv(NoGuest()), cfg, Plan(lo), 0, Initial(w0, profile), Pass));
  }

  ghost predicate FloorHeld(f: Fates, cfg: Config, lo: Tcb, w0: HostState, profile: Option<Profile>) {
    ExecuteTest(HostEnv(f), cfg, Plan(lo), w0, profile).st.world.fw.committed == w0.fw.committed
  }

  /** The gate protects the floor exactly when there is nothing to advance or no
      report left in the artifact directory reads as committed: without host
      changes allowed, the floor is held in every run iff the firmware is not
      provisional or there is no such stale report. */
  lemma FloorHeldExactly(cfg: Config, lo: Tcb, w0: HostState, profile: Option<Profile>)
    requires SameShape(w0.fw.committed, w0.fw.current) && !cfg.allowHostChanges
    ensures (forall f :: FloorHeld(f, cfg, lo, w0, profile))
            <==> (w0.fw.committed == w0.fw.current || !StaleReport(w0))
  {
    if w0.fw.committed == w0.fw.current || !StaleReport(w0) {
      forall f
        ensures FloorHeld(f, cfg, lo, w0, profile)
      {
        CommitSafety(f, cfg, lo, w0, profile);
      }
    } else {
      StaleReportAdvancesFloor(cfg, lo, w0, profile);
      assert !FloorHeld(NoGuest(), cfg, lo, w0, profile);
    }
  }
}
