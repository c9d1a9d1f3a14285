/** Every run of the config/commit test: the teardown that is always reached
    before the gate, and what it leaves in ReportedTcb. */
module ConfigCommitRuns {
  import opened Prelude
  import opened Models
  import opened Machine
  import opened RunProperties
  import opened Escapes
  import opened TcbValues
  import opened ConfigCommit
  import opened ConfigCommitSafety

  // ── Teardown ──────────────────────────────────────────────────

  /** The k-th action comes before every action of the gate and later steps. */
  ghost predicate BeforeGate(trace: seq<Event>, k: nat) {
    forall m | 0 <= m < |trace| && trace[m].at >= GATE_STEP :: k < m
  }

  ghost predicate RanAt(trace: seq<Event>, j: nat, command: string) {
    exists k :: 0 <= k < |trace| && trace[k].at == j && BeforeGate(trace, k)
                && trace[k].action.AShell? && trace[k].action.command == command
  }

  ghost predicate StopTriedAt(trace: seq<Event>, j: nat) {
    exists k :: 0 <= k < |trace| && trace[k].at == j && BeforeGate(trace, k) && trace[k].action.AStop?
  }

  lemma EarlierFirst(trace: seq<Event>, k: nat)
    requires InOrder(trace) && k < |trace| && trace[k].at < GATE_STEP
    ensures BeforeGate(trace, k)
  {
  }

  /** The facts about the plan that the proofs below rest on: only the first
      step and the gate can halt it, and only its last step commits. */
  ghost predicate PlanShape(steps: seq<Step>) {
    && |steps| == 17
    && (forall j | 0 <= j < 17 :: steps[j].severity.Setup? <==> j == 0 || j == GATE_STEP)
    && (forall j | 0 <= j < 17 :: steps[j].kind == Callable(COMMIT_HANDLER) <==> j == COMMIT_STEP)
    && steps[8].kind == Host(RESET)
    && steps[TEARDOWN_STEP].kind == Host(RESET)
    && steps[STOP_STEP].kind == VmStop
    && steps[GATE_STEP].kind.Callable?
  }

  lemma PlanHasShape(lo: Tcb)
    ensures PlanShape(Plan(lo))
  {
  }

  lemma OnlyGateHalts(steps: seq<Step>, rs: seq<StepResult>, j: nat)
    requires PlanShape(steps) && j <= GATE_STEP && !HaltsBefore(steps, rs, 1)
    ensures !HaltsBefore(steps, rs, j)
  {
  }

  /** A run that gets past its first step and comes to a verdict carries out
      each step before the gate, and what the step did stays in the history. */
  lemma StepCarriedOut<W>(env: Env<W>, cfg: Config, steps: seq<Step>, j: nat, w: W, profile: Option<Profile>,
                          out: Outcome<W>)
    requires PlanShape(steps) && j < GATE_STEP
    requires out == Loop(env, cfg, steps, 0, Initial(w, profile), Pass)
    requires out.finish.Verdict? && !HaltsBefore(steps, out.st.results, 1)
    ensures var e := ExecStep(env, cfg, steps[j], j, Before(env, cfg, steps, j, Initial(w, profile)));
            e.Done? && e.st.trace <= out.st.trace
  {
    OnlyGateHalts(steps, out.st.results, j);
    OnlyGateHalts(steps, out.st.results, j + 1);
    Reaches(env, cfg, steps, j, w, profile, out);
    var at := Before(env, cfg, steps, j, Initial(w, profile));
    assert !Halts(steps, out.st.results, j);
    PassOn(env, cfg, steps, j, at, out);
    var e := ExecStep(env, cfg, steps[j], j, at);
    var at' := e.st.Append(e.sr);
    LoopShape(env, cfg, steps, j + 1, at', OverallOf(steps, at'.results));
  }

  lemma CommandRan<W>(env: Env<W>, cfg: Config, steps: seq<Step>, j: nat, w: W, profile: Option<Profile>,
                      out: Outcome<W>)
    requires PlanShape(steps) && j < GATE_STEP && steps[j].kind == Host(RESET)
    requires out == Loop(env, cfg, steps, 0, Initial(w, profile), Pass)
    requires out.finish.Verdict? && !HaltsBefore(steps, out.st.results, 1)
    requires InOrder(out.st.trace)
    ensures RanAt(out.st.trace, j, RESET)
  {
    StepCarriedOut(env, cfg, steps, j, w, profile, out);
    var at := Before(env, cfg, steps, j, Initial(w, profile));
    var e := ExecStep(env, cfg, steps[j], j, at);
    HostStepRuns(env, cfg, steps[j], j, at);
    assert e.st.trace[|at.trace|] == out.st.trace[|at.trace|];
    EarlierFirst(out.st.trace, |at.trace|);
  }

  lemma HostStepRuns<W>(env: Env<W>, cfg: Config, step: Step, i: nat, st: RunState<W>)
    requires step.kind.Host?
    ensures var trace := ExecStep(env, cfg, step, i, st).st.trace;
            && |trace| == |st.trace| + 1
            && trace[|st.trace|].at == i
            && trace[|st.trace|].action.AShell?
            && trace[|st.trace|].action.command == step.kind.command
  {
  }

  lemma StopStepTries<W>(env: Env<W>, cfg: Config, step: Step, i: nat, st: RunState<W>, trace: seq<Event>)
    requires step.kind.VmStop? && i < GATE_STEP && st.launch.Some?
    requires var e := ExecStep(env, cfg, step, i, st); e.Done? && e.st.trace <= trace
    requires InOrder(trace)
    ensures StopTriedAt(trace, i)
  {
    StopStepLast(env, cfg, step, i, st);
    LastStopTried(StopStep(env, cfg, step, i, st).st.trace, trace, i);
  }

  lemma StopStepLast<W>(env: Env<W>, cfg: Config, step: Step, i: nat, st: RunState<W>)
    requires st.launch.Some? && StopStep(env, cfg, step, i, st).Done?
    ensures var t := StopStep(env, cfg, step, i, st).st.trace;
            t != [] && t[|t| - 1].at == i && t[|t| - 1].action.AStop?
  {
  }

  lemma LastStopTried(t: seq<Event>, trace: seq<Event>, j: nat)
    requires t != [] && t[|t| - 1].at == j < GATE_STEP && t[|t| - 1].action.AStop?
    requires t <= trace && InOrder(trace)
    ensures StopTriedAt(trace, j)
  {
    assert trace[|t| - 1] == t[|t| - 1];
    EarlierFirst(trace, |t| - 1);
  }

  lemma StopTried<W>(env: Env<W>, cfg: Config, steps: seq<Step>, w: W, profile: Option<Profile>, out: Outcome<W>)
    requires PlanShape(steps)
    requires out == Loop(env, cfg, steps, 0, Initial(w, profile), Pass)
    requires out.finish.Verdict? && !HaltsBefore(steps, out.st.results, 1)
    requires InOrder(out.st.trace)
    ensures StopTriedAt(out.st.trace, STOP_STEP)
            || Before(env, cfg, steps, STOP_STEP, Initial(w, profile)).launch.None?
  {
    var j := STOP_STEP;
    StepCarriedOut(env, cfg, steps, j, w, profile, out);
    var at := Before(env, cfg, steps, j, Initial(w, profile));
    if at.launch.Some? {
      StopStepTries(env, cfg, steps[j], j, at, out.st.trace);
    }
  }

  ghost predicate TornDown<W>(env: Env<W>, cfg: Config, steps: seq<Step>, w: W, profile: Option<Profile>,
                              out: Outcome<W>)
    requires PlanShape(steps)
  {
    && |out.st.results| == 17
    && (!out.st.results[LOWER_STEP].status.Skip? ==>
          && (forall j | 0 <= j <= GATE_STEP :: !out.st.results[j].status.Skip?)
          && RanAt(out.st.trace, 8, RESET)
          && RanAt(out.st.trace, TEARDOWN_STEP, RESET)
          && (StopTriedAt(out.st.trace, STOP_STEP)
              || Before(env, cfg, steps, STOP_STEP, Initial(w, profile)).launch.None?))
  }

  lemma TornDownBeforeTeardown<W>(env: Env<W>, cfg: Config, steps: seq<Step>, w: W, profile: Option<Profile>)
    requires PlanShape(steps)
    ensures var out := Loop(env, cfg, steps, 0, Initial(w, profile), Pass);
            out.finish.Verdict? ==> TornDown(env, cfg, steps, w, profile, out)
  {
    var out := Loop(env, cfg, steps, 0, Initial(w, profile), Pass);
    LoopShape(env, cfg, steps, 0, Initial(w, profile), Pass);
    ActionsInOrder(env, cfg, steps, w, profile);
    if out.finish.Verdict? && !out.st.results[LOWER_STEP].status.Skip? {
      forall j | 0 <= j <= GATE_STEP
        ensures !out.st.results[j].status.Skip?
      {
        OnlyGateHalts(steps, out.st.results, j);
      }
      CommandRan(env, cfg, steps, 8, w, profile, out);
      CommandRan(env, cfg, steps, TEARDOWN_STEP, w, profile, out);
      StopTried(env, cfg, steps, w, profile, out);
    }
  }

  /** The final teardown adds at most one action, after all others. */
  lemma TraceKept<W>(env: Env<W>, out: Outcome<W>)
    ensures var out' := Finally(env, 17, out);
            && out'.st.results == out.st.results
            && out.st.trace <= out'.st.trace
            && (forall m | |out.st.trace| <= m < |out'.st.trace| :: out'.st.trace[m].at == 17)
            && (out'.finish.Verdict? ==> out.finish == out'.finish)
  {
  }

  lemma KeptBeforeGate(t: seq<Event>, trace: seq<Event>, k: nat)
    requires t <= trace && k < |t| && BeforeGate(t, k)
    ensures BeforeGate(trace, k)
  {
    forall m | 0 <= m < |trace| && trace[m].at >= GATE_STEP
      ensures k < m
    {
      if m < |t| {
        assert t[m] == trace[m];
      }
    }
  }

  lemma TornDownAfter<W>(env: Env<W>, cfg: Config, steps: seq<Step>, w: W, profile: Option<Profile>,
                         mid: Outcome<W>, out: Outcome<W>)
    requires PlanShape(steps) && TornDown(env, cfg, steps, w, profile, mid)
    requires out.st.results == mid.st.results && mid.st.trace <= out.st.trace
    ensures TornDown(env, cfg, steps, w, profile, out)
  {
    var t, trace := mid.st.trace, out.st.trace;
    forall k | 0 <= k < |t| && BeforeGate(t, k)
      ensures BeforeGate(trace, k) && trace[k] == t[k]
    {
      KeptBeforeGate(t, trace, k);
    }
  }

  /** In any world: a run that comes to a verdict, as every run does when nothing
      escapes and the final stop works, or in which nothing escapes, and that got
      as far as lowering the TCB, executes every step up to the gate. Before any
      action of the gate or the commit it has carried out both resets and tried
      to stop the VM if one was tracked, whichever steps fail. */
  lemma TeardownNeverSkipped<W(!new)>(env: Env<W>, cfg: Config, lo: Tcb, w: W, profile: Option<Profile>)
    ensures PlanShape(Plan(lo))
    ensures var out := ExecuteTest(env, cfg, Plan(lo), w, profile);
            out.finish.Verdict? || NeverEscapes(env) ==> TornDown(env, cfg, Plan(lo), w, profile, out)
  {
    var steps := Plan(lo);
    PlanHasShape(lo);
    TornDownBeforeTeardown(env, cfg, steps, w, profile);
    var mid := Loop(env, cfg, steps, 0, Initial(w, profile), Pass);
    TraceKept(env, mid);
    if NeverEscapes(env) {
      LoopEnds(env, cfg, steps, 0, Initial(w, profile), Pass);
    }
    if mid.finish.Verdict? {
      TornDownAfter(env, cfg, steps, w, profile, mid, ExecuteTest(env, cfg, steps, w, profile));
    }
  }

  // ── The gate ──────────────────────────────────────────────────

  ghost predicate CommitCalled(trace: seq<Event>) {
    exists k :: 0 <= k < |trace| && trace[k].action.ACall? && trace[k].action.handler == COMMIT_HANDLER
  }

  lemma CommitCallGated<W>(env: Env<W>, cfg: Config, steps: seq<Step>, w: W, profile: Option<Profile>)
    requires PlanShape(steps)
    ensures var out := Loop(env, cfg, steps, 0, Initial(w, profile), Pass);
            CommitCalled(out.st.trace) ==> PassedAt(out.st.results, GATE_STEP)
  {
    var out := Loop(env, cfg, steps, 0, Initial(w, profile), Pass);
    var rs, trace := out.st.results, out.st.trace;
    LoopShape(env, cfg, steps, 0, Initial(w, profile), Pass);
    if k :| 0 <= k < |trace| && trace[k].action.ACall? && trace[k].action.handler == COMMIT_HANDLER {
      assert Owned(steps[trace[k].at], trace[k].action);
      assert trace[k].at == COMMIT_STEP && !HaltsBefore(steps, rs, COMMIT_STEP);
      assert !Halts(steps, rs, GATE_STEP) && !HaltsBefore(steps, rs, GATE_STEP);
    }
  }

  /** In any world: the commit command is called, whether or not it then takes
      effect, only in a run whose gate passed. */
  lemma CommitOnlyAfterGate<W>(env: Env<W>, cfg: Config, lo: Tcb, w: W, profile: Option<Profile>)
    ensures var out := ExecuteTest(env, cfg, Plan(lo), w, profile);
            CommitCalled(out.st.trace) ==> PassedAt(out.st.results, GATE_STEP)
  {
    PlanHasShape(lo);
    CommitCallGated(env, cfg, Plan(lo), w, profile);
    TeardownCallsNothing(env, Loop(env, cfg, Plan(lo), 0, Initial(w, profile), Pass));
  }

  lemma TeardownCallsNothing<W>(env: Env<W>, out: Outcome<W>)
    ensures CommitCalled(Finally(env, 17, out).st.trace) ==> CommitCalled(out.st.trace)
  {
    var t, trace := out.st.trace, Finally(env, 17, out).st.trace;
    if k :| 0 <= k < |trace| && trace[k].action.ACall? && trace[k].action.handler == COMMIT_HANDLER {
      assert t[k] == trace[k];
    }
  }

  // ── Reported after the run ────────────────────────────────────

  /** Every reset takes effect and returns Reported to `t`. */
  ghost predicate WorkingResets(f: Fates, t: Tcb) {
    forall k :: f.resets(k) == Some(t)
  }

  lemma OnGuestKeepsFirmware(f: Fates, step: Step, i: nat, l: Launch, st: RunState<HostState>)
    requires step.kind.Guest? || step.kind.GuestPull?
    ensures OnGuest(HostEnv(f), step, i, l, st).st.world.fw == st.world.fw
  {
  }

  lemma GuestKeepsFirmware(f: Fates, step: Step, i: nat, st: RunState<HostState>)
    requires step.kind.Guest? || step.kind.GuestPull?
    ensures GuestStep(HostEnv(f), step, i, st).st.world.fw == st.world.fw
  {
    GuestStepCases(HostEnv(f), step, i, st);
    if st.profile.Some? {
      if st.launch.Some? {
        OnGuestKeepsFirmware(f, step, i, st.launch.value, st);
      } else {
        var (st1, out) := Start(HostEnv(f), i, st.profile.value, st);
        StartKeepsFirmware(f, i, st.profile.value, st);
        if out.LaunchReturns? {
          OnGuestKeepsFirmware(f, step, i, out.launch, st1);
        }
      }
    }
  }

  lemma StartKeepsFirmware(f: Fates, i: nat, p: Profile, st: RunState<HostState>)
    ensures Start(HostEnv(f), i, p, st).0.world.fw == st.world.fw
  {
    assert HostEnv(f).boot(st.world, p) == BootGuest(f, st.world, p);
  }

  lemma LaunchKeepsFirmware(f: Fates, cfg: Config, step: Step, i: nat, st: RunState<HostState>)
    requires step.kind.VmLaunch?
    ensures LaunchStep(HostEnv(f), cfg, step, i, st).st.world.fw == st.world.fw
  {
    if st.profile.Some? && st.launch.None? {
      var p := LaunchProfile(HostEnv(f), cfg, step.kind.guestId, st.profile.value, st.world);
      StartKeepsFirmware(f, i, p, st.(profile := Some(p)));
    }
  }

  lemma StopKeepsFirmware(f: Fates, cfg: Config, step: Step, i: nat, st: RunState<HostState>)
    ensures StopStep(HostEnv(f), cfg, step, i, st).st.world.fw == st.world.fw
  {
    if st.launch.Some? {
      var l := st.launch.value;
      var st1 := if cfg.debug then st.(world := HostEnv(f).journal(st.world, l).0).Did(i, AJournal(l)) else st;
      assert HostEnv(f).journal(st.world, l).0 == st.world.Next();
      StopTicks(f, i, l, st1);
    }
  }

  /** Steps other than the host steps and the commit leave the firmware alone. */
  lemma FirmwareKept(f: Fates, cfg: Config, step: Step, i: nat, st: RunState<HostState>)
    requires !step.kind.Host? && step.kind != Callable(COMMIT_HANDLER)
    ensures ExecStep(HostEnv(f), cfg, step, i, st).st.world.fw == st.world.fw
  {
    match step.kind
    case VmLaunch(_) => LaunchKeepsFirmware(f, cfg, step, i, st);
    case VmStop => StopKeepsFirmware(f, cfg, step, i, st);
    case Callable(_) => CallTicks(f, cfg, step, i, st);
    case _ => GuestKeepsFirmware(f, step, i, st);
  }

  lemma ShellOnFirmware(f: Fates, cfg: Config, step: Step, i: nat, st: RunState<HostState>)
    requires step.kind.Host?
    ensures ExecStep(HostEnv(f), cfg, step, i, st).st.world == Shell(f, st.world, step.kind.command).0
    ensures ExecStep(HostEnv(f), cfg, step, i, st).st.launch == st.launch
  {
    assert HostEnv(f).shell(st.world, step.kind.command) == Shell(f, st.world, step.kind.command);
  }

  ghost predicate Restored(w0: HostState, j: nat, st: RunState<HostState>) {
    && |st.results| == j <= 17
    && st.world.fw.current == w0.fw.current
    && (j > TEARDOWN_STEP ==> st.world.fw.reported == w0.fw.current)
  }

  lemma HostStepRestores(f: Fates, cfg: Config, w0: HostState, step: Step, i: nat, st: RunState<HostState>)
    requires WorkingResets(f, w0.fw.current) && step.kind.Host?
    ensures var fw := ExecStep(HostEnv(f), cfg, step, i, st).st.world.fw;
            && fw.current == st.world.fw.current
            && (step.kind.command == RESET ==> fw.reported == w0.fw.current)
  {
    ShellOnFirmware(f, cfg, step, i, st);
  }

  lemma StepRestores(f: Fates, cfg: Config, steps: seq<Step>, w0: HostState, j: nat, st: RunState<HostState>)
    requires WorkingResets(f, w0.fw.current) && PlanShape(steps)
    requires j < 17 && Restored(w0, j, st)
    ensures var fw := ExecStep(HostEnv(f), cfg, steps[j], j, st).st.world.fw;
            fw.current == w0.fw.current && (j >= TEARDOWN_STEP ==> fw.reported == w0.fw.current)
  {
    if j == COMMIT_STEP {
      CommitOnFirmware(f, cfg, steps[j], j, st);
    } else if steps[j].kind.Host? {
      if j <= TEARDOWN_STEP {
        HostStepRestores(f, cfg, w0, steps[j], j, st);
      }
    } else {
      FirmwareKept(f, cfg, steps[j], j, st);
    }
  }

  lemma RestoredStep(f: Fates, cfg: Config, steps: seq<Step>, w0: HostState, j: nat, st: RunState<HostState>)
    requires WorkingResets(f, w0.fw.current) && PlanShape(steps)
    requires j < 17 && Restored(w0, j, st)
    ensures var e := ExecStep(HostEnv(f), cfg, steps[j], j, st);
            && e.st.results == st.results
            && (e.Done? ==> Restored(w0, j + 1, e.st.Append(e.sr)))
            && (j > TEARDOWN_STEP ==> e.st.world.fw.reported == w0.fw.current)
  {
    StepGrows(HostEnv(f), cfg, steps[j], j, st);
    StepRestores(f, cfg, steps, w0, j, st);
  }

  ghost predicate EndsRestored(w0: HostState, out: Outcome<HostState>) {
    out.finish.Verdict? || |out.st.results| > TEARDOWN_STEP ==> out.st.world.fw.reported == w0.fw.current
  }

  lemma LoopTurnRestores(env: Env<HostState>, cfg: Config, steps: seq<Step>, w0: HostState, j: nat,
                         st: RunState<HostState>, overall: Status, e: Exec<HostState>)
    requires PlanShape(steps) && 1 <= j < 17
    requires e == ExecStep(env, cfg, steps[j], j, st)
    requires j == |st.results| == |e.st.results|
    requires j > TEARDOWN_STEP ==> e.st.world.fw.reported == w0.fw.current
    requires e.Done? && !(e.sr.Bad() && steps[j].severity.Setup?) ==>
               EndsRestored(w0, Loop(env, cfg, steps, j + 1, e.st.Append(e.sr), NextOverall(steps[j], e.sr, overall)))
    ensures EndsRestored(w0, Loop(env, cfg, steps, j, st, overall))
  {
  }

  lemma {:induction false} LoopRestores(f: Fates, cfg: Config, steps: seq<Step>, w0: HostState, j: nat,
                                        st: RunState<HostState>, overall: Status)
    requires WorkingResets(f, w0.fw.current) && PlanShape(steps)
    requires 1 <= j <= 17 && Restored(w0, j, st)
    ensures EndsRestored(w0, Loop(HostEnv(f), cfg, steps, j, st, overall))
    decreases 17 - j
  {
    if j < 17 {
      RestoredStep(f, cfg, steps, w0, j, st);
      var env := HostEnv(f);
      var e := ExecStep(env, cfg, steps[j], j, st);
      if e.Done? && !(e.sr.Bad() && steps[j].severity.Setup?) {
        LoopRestores(f, cfg, steps, w0, j + 1, e.st.Append(e.sr), NextOverall(steps[j], e.sr, overall));
      }
      LoopTurnRestores(env, cfg, steps, w0, j, st, overall, e);
    }
  }

  lemma RestoredBeforeTeardown(f: Fates, cfg: Config, steps: seq<Step>, w0: HostState, profile: Option<Profile>)
    requires WorkingResets(f, w0.fw.current) && PlanShape(steps)
    ensures var out := Loop(HostEnv(f), cfg, steps, 0, Initial(w0, profile), Pass);
            && (out.finish.Verdict? ==> |out.st.results| == 17)
            && ((out.finish.Verdict? || |out.st.results| > TEARDOWN_STEP) && !out.st.results[0].Bad() ==>
                  out.st.world.fw.reported == w0.fw.current)
  {
    var st := Initial(w0, profile);
    LoopShape(HostEnv(f), cfg, steps, 0, st, Pass);
    var e := ExecStep(HostEnv(f), cfg, steps[0], 0, st);
    RestoredStep(f, cfg, steps, w0, 0, st);
    if e.Done? && !e.sr.Bad() {
      LoopRestores(f, cfg, steps, w0, 1, e.st.Append(e.sr), NextOverall(steps[0], e.sr, Pass));
    }
  }

  /** When resets work, every run that comes to a verdict after the first step
      leaves Reported equal to Current, whatever else fails; so does a run cut
      short by an exception once the teardown reset has been executed. */
  lemma ReportedRestored(f: Fates, cfg: Config, lo: Tcb, w0: HostState, profile: Option<Profile>)
    requires WorkingResets(f, w0.fw.current)
    ensures var out := ExecuteTest(HostEnv(f), cfg, Plan(lo), w0, profile);
            && (out.finish.Verdict? ==> |out.st.results| == 17)
            && ((out.finish.Verdict? || |out.st.results| > TEARDOWN_STEP) && !out.st.results[0].Bad() ==>
                  out.st.world.fw.reported == w0.fw.current)
  {
    PlanHasShape(lo);
    RestoredBeforeTeardown(f, cfg, Plan(lo), w0, profile);
    TeardownTicks(f, 17, Loop(HostEnv(f), cfg, Plan(lo), 0, Initial(w0, profile), Pass));
  }
}
