/** The teardown of the config/commit test against exceptions that no runner
    catches: without them it always runs and leaves Reported at Current; with
    them it may not, and the condition is exact. */
module ConfigCommitEscapes {
  import opened Prelude
  import opened Models
  import opened Machine
  import opened RunProperties
  import opened Escapes
  import opened TcbValues
  import opened ConfigCommit
  import opened ConfigCommitSafety
  import opened ConfigCommitRuns
  import opened ConfigCommitComplete
  import opened ConfigCommitLimits

  /** Whatever fails, no exception gets past a runner. */
  ghost predicate NoEscape(f: Fates) {
    && (forall k :: !f.shell(k).ShellEscapes?)
    && (forall k :: !f.boot(k).BootEscapes?)
    && (forall k :: !f.stop(k).StopEscapes?)
    && (forall k :: !f.journal(k).JournalEscapes?)
    && (forall k :: !f.guest(k).VsockEscapes?)
    && (forall k :: !f.pull(k).PullEscapes?)
  }

  lemma HostNeverEscapes(f: Fates)
    requires NoEscape(f)
    ensures NeverEscapes(HostEnv(f))
  {
    var env := HostEnv(f);
    forall w, c
      ensures !env.shell(w, c).1.ShellEscapes?
    {
      assert env.shell(w, c) == Shell(f, w, c);
    }
    forall w, p
      ensures !env.boot(w, p).1.BootEscapes?
    {
      assert env.boot(w, p) == BootGuest(f, w, p);
    }
    forall w, l
      ensures !env.stop(w, l).1.StopEscapes? && !env.journal(w, l).1.JournalEscapes?
    {
      assert env.stop(w, l) == (w.Next(), f.stop(w.tick)) && env.journal(w, l) == (w.Next(), f.journal(w.tick));
    }
    forall w, l, c
      ensures !env.guest(w, l, c).1.VsockEscapes?
    {
      assert env.guest(w, l, c) == GuestCommand(f, w, l, c);
    }
    forall w, l, src, dest
      ensures !env.pull(w, l, src, dest).1.PullEscapes?
    {
      assert env.pull(w, l, src, dest) == PullFile(f, w, l, src, dest);
    }
  }

  // ── A run that an exception cuts short ────────────────────────

  /** The first host command works and the output of every later one cannot be
      read; no guest can be started, and commands may or may not take effect. */
  function Unreadable(t: Tcb, at: nat, takes: bool): Fates {
    NoGuest().(shell := k => if k == at then ShellExits(0, "", "") else ShellEscapes,
               takes := k => takes,
               resets := k => Some(t))
  }

  lemma EscapingShell(f: Fates, cfg: Config, step: Step, i: nat, st: RunState<HostState>)
    requires step.kind.Host? && f.shell(st.world.tick).ShellEscapes?
    ensures ExecStep(HostEnv(f), cfg, step, i, st).Raised?
  {
    assert HostEnv(f).shell(st.world, step.kind.command).1 == f.shell(st.world.tick);
  }

  lemma UnreadableFirst(f: Fates, cfg: Config, step: Step, takes: bool, w0: HostState, profile: Option<Profile>)
    requires f == Unreadable(w0.fw.current, w0.tick, takes)
    requires step.kind == Host(SHOW) && step.expected == OK
    ensures var e := ExecStep(HostEnv(f), cfg, step, 0, Initial(w0, profile));
            && e.Done? && e.sr.status.Pass? && e.st.results == []
            && e.st.world.tick == w0.tick + 1 && e.st.launch.None?
            && (!takes ==> e.st.world.fw.reported == w0.fw.reported)
  {
    assert HostEnv(f).shell(w0, SHOW) == Shell(f, w0, SHOW);
  }

  lemma UnreadableSecond(f: Fates, cfg: Config, step: Step, takes: bool, lo: Tcb, w0: HostState,
                         st: RunState<HostState>)
    requires f == Unreadable(w0.fw.current, w0.tick, takes)
    requires step.kind == Host(ConfigSet(lo, 0))
    requires st.world.tick == w0.tick + 1 && st.launch.None?
    ensures var e := ExecStep(HostEnv(f), cfg, step, 1, st);
            && e.Raised? && e.st.launch.None? && e.st.results == st.results
            && e.st.world.fw.reported == if takes then lo else st.world.fw.reported
  {
    EscapingShell(f, cfg, step, 1, st);
    ShellOnFirmware(f, cfg, step, 1, st);
    StepGrows(HostEnv(f), cfg, step, 1, st);
    SetIsNoReset(lo);
    if takes {
      SetTakes(f, lo, st.world);
    }
  }

  /** An exception that no runner catches ends the run without the teardown
      resets: the override set by `config-set-lower`, or whatever Reported was
      before, stays in place even though every reset would have worked. */
  lemma EscapeLeavesOverride(cfg: Config, lo: Tcb, w0: HostState, profile: Option<Profile>, takes: bool)
    ensures var f := Unreadable(w0.fw.current, w0.tick, takes);
            var out := ExecuteTest(HostEnv(f), cfg, Plan(lo), w0, profile);
            && WorkingResets(f, w0.fw.current)
            && out.finish == Escaped
            && |out.st.results| == 1 && out.st.results[0].status.Pass?
            && out.st.world.fw.reported == if takes then lo else w0.fw.reported
  {
    var f := Unreadable(w0.fw.current, w0.tick, takes);
    PlanIsScript(lo);
    CutShort(f, cfg, Plan(lo), lo, w0, profile, takes);
  }

  lemma CutShort(f: Fates, cfg: Config, steps: seq<Step>, lo: Tcb, w0: HostState, profile: Option<Profile>, takes: bool)
    requires f == Unreadable(w0.fw.current, w0.tick, takes) && Script(lo, steps)
    ensures var out := ExecuteTest(HostEnv(f), cfg, steps, w0, profile);
            && out.finish == Escaped
            && |out.st.results| == 1 && out.st.results[0].status.Pass?
            && out.st.world.fw.reported == if takes then lo else w0.fw.reported
  {
    var st0 := Initial(w0, profile);
    var e0 := ExecStep(HostEnv(f), cfg, steps[0], 0, st0);
    UnreadableFirst(f, cfg, steps[0], takes, w0, profile);
    var st1 := e0.st.Append(e0.sr);
    var e1 := ExecStep(HostEnv(f), cfg, steps[1], 1, st1);
    UnreadableSecond(f, cfg, steps[1], takes, lo, w0, st1);
    RaisedSecond(HostEnv(f), cfg, steps, w0, profile, e0, e1);
  }

  lemma RaisedSecond<W>(env: Env<W>, cfg: Config, steps: seq<Step>, w0: W, profile: Option<Profile>, e0: Exec<W>,
                        e1: Exec<W>)
    requires |steps| > 1 && e0 == ExecStep(env, cfg, steps[0], 0, Initial(w0, profile))
    requires e0.Done? && e0.sr.status.Pass?
    requires e1 == ExecStep(env, cfg, steps[1], 1, e0.st.Append(e0.sr)) && e1.Raised? && e1.st.launch.None?
    ensures ExecuteTest(env, cfg, steps, w0, profile) == Outcome(e1.st, Escaped)
  {
    var st0 := Initial(w0, profile);
    LoopOnce(env, cfg, steps, 0, st0, Pass, e0);
    LoopOnce(env, cfg, steps, 1, e0.st.Append(e0.sr), NextOverall(steps[0], e0.sr, Pass), e1);
  }

  // ── Reported when nothing escapes ─────────────────────────────

  lemma FirstStepHalts(f: Fates, cfg: Config, steps: seq<Step>, w0: HostState, profile: Option<Profile>)
    requires PlanShape(steps) && steps[0].kind == Host(SHOW)
    ensures var out := Loop(HostEnv(f), cfg, steps, 0, Initial(w0, profile), Pass);
            |out.st.results| > 0 && out.st.results[0].Bad() ==> out.st.world.fw == w0.fw
  {
    var env, st0 := HostEnv(f), Initial(w0, profile);
    var e := ExecStep(env, cfg, steps[0], 0, st0);
    ShellOnFirmware(f, cfg, steps[0], 0, st0);
    ShowSetsNothing(f, w0);
    StepGrows(env, cfg, steps[0], 0, st0);
    LoopOnce(env, cfg, steps, 0, st0, Pass, e);
    if e.Done? && !e.sr.Bad() {
      var st1 := e.st.Append(e.sr);
      LoopKeepsResults(env, cfg, steps, 1, st1, NextOverall(steps[0], e.sr, Pass));
    }
  }

  lemma {:induction false} LoopKeepsResults<W>(env: Env<W>, cfg: Config, steps: seq<Step>, i: nat, st: RunState<W>,
                                               overall: Status)
    requires i <= |steps|
    ensures st.results <= Loop(env, cfg, steps, i, st, overall).st.results
    decreases |steps| - i
  {
    if i < |steps| {
      var e := ExecStep(env, cfg, steps[i], i, st);
      StepGrows(env, cfg, steps[i], i, st);
      LoopOnce(env, cfg, steps, i, st, overall, e);
      if e.Done? && !(e.sr.Bad() && steps[i].severity.Setup?) {
        LoopKeepsResults(env, cfg, steps, i + 1, e.st.Append(e.sr), NextOverall(steps[i], e.sr, overall));
      }
    }
  }

  /** When nothing escapes and resets work, the run leaves Reported equal to
      Current, whatever else fails; or as it was, if already the first step
      failed. */
  lemma ReportedAfterRun(f: Fates, cfg: Config, lo: Tcb, w0: HostState, profile: Option<Profile>)
    requires WorkingResets(f, w0.fw.current) && NoEscape(f)
    ensures var out := ExecuteTest(HostEnv(f), cfg, Plan(lo), w0, profile);
            && |out.st.results| == 17
            && out.st.world.fw.reported == if out.st.results[0].Bad() then w0.fw.reported else w0.fw.current
  {
    HostNeverEscapes(f);
    RunEnds(HostEnv(f), cfg, Plan(lo), w0, profile);
    ReportedRestored(f, cfg, lo, w0, profile);
    PlanHasShape(lo);
    FirstStepHalts(f, cfg, Plan(lo), w0, profile);
    TeardownTicks(f, 17, Loop(HostEnv(f), cfg, Plan(lo), 0, Initial(w0, profile), Pass));
  }

  // ── Nothing to restore ────────────────────────────────────────

  /** The host commands of the plan. */
  ghost predicate Commands(lo: Tcb, steps: seq<Step>) {
    forall j | 0 <= j < |steps| && steps[j].kind.Host? :: steps[j].kind.command in {SHOW, ConfigSet(lo, 0), RESET}
  }

  lemma PlanHasCommands(lo: Tcb)
    ensures Commands(lo, Plan(lo))
  {
  }

  ghost predicate AtCurrent(c: Tcb, w: HostState) {
    w.fw.current == c && w.fw.reported == c
  }

  lemma ShellStays(f: Fates, c: Tcb, w: HostState, command: string)
    requires WorkingResets(f, c) && AtCurrent(c, w) && command in {SHOW, ConfigSet(c, 0), RESET}
    ensures AtCurrent(c, Shell(f, w, command).0)
  {
    if command == SHOW {
      ShowSetsNothing(f, w);
    } else if command == ConfigSet(c, 0) {
      ConfigSetRoundTrip(c, 0);
    }
  }

  lemma StepStays(f: Fates, cfg: Config, c: Tcb, steps: seq<Step>, j: nat, st: RunState<HostState>)
    requires WorkingResets(f, c) && j < |steps| && Commands(c, steps) && AtCurrent(c, st.world)
    ensures AtCurrent(c, ExecStep(HostEnv(f), cfg, steps[j], j, st).st.world)
  {
    if steps[j].kind.Host? {
      ShellOnFirmware(f, cfg, steps[j], j, st);
      ShellStays(f, c, st.world, steps[j].kind.command);
    } else if steps[j].kind == Callable(COMMIT_HANDLER) {
      CommitOnFirmware(f, cfg, steps[j], j, st);
    } else {
      FirmwareKept(f, cfg, steps[j], j, st);
    }
  }

  lemma {:induction false} LoopStays(f: Fates, cfg: Config, c: Tcb, steps: seq<Step>, j: nat,
                                     st: RunState<HostState>, overall: Status)
    requires WorkingResets(f, c) && j <= |steps| && Commands(c, steps) && AtCurrent(c, st.world)
    ensures AtCurrent(c, Loop(HostEnv(f), cfg, steps, j, st, overall).st.world)
    decreases |steps| - j
  {
    if j < |steps| {
      var env := HostEnv(f);
      var e := ExecStep(env, cfg, steps[j], j, st);
      StepStays(f, cfg, c, steps, j, st);
      LoopOnce(env, cfg, steps, j, st, overall, e);
      if e.Done? && !(e.sr.Bad() && steps[j].severity.Setup?) {
        LoopStays(f, cfg, c, steps, j + 1, e.st.Append(e.sr), NextOverall(steps[j], e.sr, overall));
      }
    }
  }

  lemma NothingToRestore(f: Fates, cfg: Config, w0: HostState, profile: Option<Profile>)
    requires WorkingResets(f, w0.fw.current) && w0.fw.reported == w0.fw.current
    ensures ExecuteTest(HostEnv(f), cfg, Plan(w0.fw.current), w0, profile).st.world.fw.reported == w0.fw.current
  {
    var c := w0.fw.current;
    PlanHasCommands(c);
    LoopStays(f, cfg, c, Plan(c), 0, Initial(w0, profile), Pass);
    TeardownTicks(f, 17, Loop(HostEnv(f), cfg, Plan(c), 0, Initial(w0, profile), Pass));
  }

  // ── The exact conditions ──────────────────────────────────────

  /** The run leaves Reported at Current, unless its first step failed. */
  ghost predicate OverrideCleared(f: Fates, cfg: Config, lo: Tcb, w0: HostState, profile: Option<Profile>) {
    var out := ExecuteTest(HostEnv(f), cfg, Plan(lo), w0, profile);
    |out.st.results| > 0 && !out.st.results[0].Bad() ==> out.st.world.fw.reported == w0.fw.current
  }

  /** Among the worlds with working resets, with or without those in which an
      exception escapes: every run leaves Reported at Current iff escapes are
      excluded or there is nothing to restore, neither before the run nor by its
      own lowering. */
  lemma RestoredExactly(cfg: Config, lo: Tcb, w0: HostState, profile: Option<Profile>, escapes: bool)
    ensures (forall f | WorkingResets(f, w0.fw.current) && (escapes || NoEscape(f)) ::
              OverrideCleared(f, cfg, lo, w0, profile))
            <==> (!escapes || (lo == w0.fw.current && w0.fw.reported == w0.fw.current))
  {
    if !escapes || (lo == w0.fw.current && w0.fw.reported == w0.fw.current) {
      forall f | WorkingResets(f, w0.fw.current) && (escapes || NoEscape(f))
        ensures OverrideCleared(f, cfg, lo, w0, profile)
      {
        if escapes {
          NothingToRestore(f, cfg, w0, profile);
        } else {
          ReportedAfterRun(f, cfg, lo, w0, profile);
        }
      }
    } else {
      var takes := lo != w0.fw.current;
      EscapeLeavesOverride(cfg, lo, w0, profile, takes);
      assert !OverrideCleared(Unreadable(w0.fw.current, w0.tick, takes), cfg, lo, w0, profile);
    }
  }

  ghost predicate TearsDown(f: Fates, cfg: Config, lo: Tcb, w0: HostState, profile: Option<Profile>)
    requires PlanShape(Plan(lo))
  {
    TornDown(HostEnv(f), cfg, Plan(lo), w0, profile, ExecuteTest(HostEnv(f), cfg, Plan(lo), w0, profile))
  }

  /** The teardown is carried out in every run iff escapes are excluded. */
  lemma TornDownExactly(cfg: Config, lo: Tcb, w0: HostState, profile: Option<Profile>, escapes: bool)
    ensures PlanShape(Plan(lo))
    ensures (forall f | escapes || NoEscape(f) :: TearsDown(f, cfg, lo, w0, profile)) <==> !escapes
  {
    PlanHasShape(lo);
    if escapes {
      EscapeLeavesOverride(cfg, lo, w0, profile, true);
      assert !TearsDown(Unreadable(w0.fw.current, w0.tick, true), cfg, lo, w0, profile);
    } else {
      forall f | NoEscape(f)
        ensures TearsDown(f, cfg, lo, w0, profile)
      {
        HostNeverEscapes(f);
        TeardownNeverSkipped(HostEnv(f), cfg, lo, w0, profile);
      }
    }
  }
}
