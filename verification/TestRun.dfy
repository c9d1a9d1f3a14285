/** `execute_test` as the program performs it: an object whose VM slot, context
    and result list are updated step by step. Every method is proved to reach
    exactly the state and result that module Machine assigns to it, so the
    theorems about Machine's functions are theorems about these runs. */
module TestRun {
  import opened Prelude
  import opened Models
  import opened Runner
  import M = Machine

  /** The result of a runner that may let an exception out (`None`). */
  ghost function Ended<W>(st: M.RunState<W>, sr: Option<StepResult>): M.Exec<W> {
    if sr.Some? then M.Done(st, sr.value) else M.Raised(st)
  }

  class TestRun<W> {
    const env: Env<W>
    const cfg: Config
    var world: W
    var launch: Option<Launch>
    var ctxProfile: Option<Profile>
    var ctxLaunch: Option<Launch>
    var stepResults: seq<StepResult>
    ghost var trace: seq<Event>

    ghost function State(): M.RunState<W>
      reads this
    {
      M.RunState(world, launch, ctxProfile, stepResults, trace)
    }

    constructor (env: Env<W>, cfg: Config, w: W, profile: Option<Profile>)
      ensures this.env == env && this.cfg == cfg
      ensures State() == M.Initial(w, profile)
    {
      this.env, this.cfg := env, cfg;
      world, launch, ctxProfile, ctxLaunch, stepResults, trace := w, None, profile, None, [], [];
    }

    method Start(i: nat, p: Profile) returns (out: LaunchOutcome)
      modifies this
      ensures (State(), out) == M.Start(env, i, p, old(State()))
    {
      var (w, boot) := env.boot(world, p);
      world := w;
      out := LaunchOf(p, boot);
      trace := trace + [Event(i, ALaunch(p, out))];
      if out.LaunchReturns? {
        launch := Some(out.launch);
      }
    }

    method RunLaunch(step: Step, i: nat) returns (sr: Option<StepResult>)
      requires step.kind.VmLaunch?
      modifies this
      ensures Ended(State(), sr) == M.LaunchStep(env, cfg, step, i, old(State()))
    {
      if ctxProfile.None? {
        return Some(ErrorResult(step, "vm_launch step requires guest image / VM profile context"));
      }
      if launch.Some? {
        return Some(ErrorResult(step, "Duplicate vm_launch step (guest is already running)"));
      }
      var profile := M.LaunchProfile(env, cfg, step.kind.guestId, ctxProfile.value, world);
      ctxProfile := Some(profile);
      var out := Start(i, profile);
      sr := if out.LaunchEscapes? then None else Some(LaunchResult(step, out));
    }

    method StopVm(i: nat, l: Launch) returns (out: StopOutcome)
      modifies this
      ensures (State(), out) == M.Stop(env, i, l, old(State()))
    {
      var (w, o) := env.stop(world, l);
      world, out := w, o;
      trace := trace + [Event(i, AStop(l, out))];
    }

    method RunStop(step: Step, i: nat) returns (sr: Option<StepResult>)
      modifies this
      ensures Ended(State(), sr) == M.StopStep(env, cfg, step, i, old(State()))
    {
      if launch.None? {
        return Some(ErrorResult(step, "vm_stop: no running guest (run vm_launch or a guest step first)"));
      }
      if cfg.debug {
        var (w, out) := env.journal(world, launch.value);
        world := w;
        trace := trace + [Event(i, AJournal(launch.value))];
        if out.JournalEscapes? {
          return None;
        }
      }
      var out := StopVm(i, launch.value);
      if out.StopEscapes? {
        return None;
      }
      var r := StopResult(step, out);
      if r.status != Error {
        launch := None;
      }
      return Some(r);
    }

    method RunHost(step: Step, i: nat) returns (sr: Option<StepResult>)
      requires step.kind.Host?
      modifies this
      ensures Ended(State(), sr) == M.HostStep(env, step, i, old(State()))
    {
      var (w, out) := env.shell(world, step.kind.command);
      world := w;
      trace := trace + [Event(i, AShell(step.kind.command, out))];
      sr := if out.ShellEscapes? then None else Some(ShellResult(step, out));
    }

    method RunOnGuest(step: Step, i: nat, l: Launch) returns (sr: Option<StepResult>)
      requires step.kind.Guest? || step.kind.GuestPull?
      modifies this
      ensures Ended(State(), sr) == M.OnGuest(env, step, i, l, old(State()))
    {
      if !l.ok {
        return Some(ErrorResult(step, l.message));
      }
      if step.kind.Guest? {
        var (w, out) := env.guest(world, l, step.kind.command);
        world := w;
        trace := trace + [Event(i, AGuest(l, step.kind.command, out))];
        sr := if out.VsockEscapes? then None else Some(GuestResult(step, out));
      } else {
        var (w, out) := env.pull(world, l, step.kind.guestSrc, step.kind.hostDest);
        world := w;
        trace := trace + [Event(i, APull(l, step.kind.guestSrc, step.kind.hostDest, out))];
        sr := if out.PullEscapes? then None
              else Some(PullResult(step, step.kind.guestSrc, step.kind.hostDest, out));
      }
    }

    method RunGuest(step: Step, i: nat) returns (sr: Option<StepResult>)
      requires step.kind.Guest? || step.kind.GuestPull?
      modifies this
      ensures Ended(State(), sr) == M.GuestStep(env, step, i, old(State()))
    {
      if ctxProfile.None? {
        return Some(ErrorResult(step, "Guest steps require a guest image path and VM profile"));
      }
      if launch.None? {
        var out := Start(i, ctxProfile.value);
        if out.LaunchEscapes? {
          return None;
        }
        if out.LaunchRaises? {
          return Some(ErrorResult(step, out.message));
        }
      }
      sr := RunOnGuest(step, i, launch.value);
    }

    method RunCallable(step: Step, i: nat) returns (sr: Option<StepResult>)
      requires step.kind.Callable?
      requires ctxLaunch == launch
      modifies this
      ensures Ended(State(), sr) == M.CallStep(env, cfg, step, i, old(State()))
    {
      var view := View(ctxProfile, ctxLaunch, stepResults, cfg.allowHostChanges);
      var (w, p, out) := env.call(world, step.kind.handler, view);
      world, ctxProfile := w, p;
      trace := trace + [Event(i, ACall(step.kind.handler, view, out))];
      sr := Some(CallResult(step, out));
    }

    method RunStep(step: Step, i: nat) returns (sr: Option<StepResult>)
      modifies this
      ensures Ended(State(), sr) == M.ExecStep(env, cfg, step, i, old(State()))
    {
      ctxLaunch := launch;
      match step.kind
      case VmLaunch(_) => sr := RunLaunch(step, i);
      case VmStop => sr := RunStop(step, i);
      case Host(_) => sr := RunHost(step, i);
      case Guest(_) => sr := RunGuest(step, i);
      case GuestPull(_, _) => sr := RunGuest(step, i);
      case Callable(_) => sr := RunCallable(step, i);
    }

    /** The remaining steps after a failed setup step are recorded as skipped. */
    method SkipFrom(steps: seq<Step>, from: nat)
      requires from <= |steps|
      modifies this`stepResults
      ensures stepResults == old(stepResults) + M.Skips(steps[from..])
    {
      for j := from to |steps|
        invariant stepResults == old(stepResults) + M.Skips(steps[from..])[..j - from]
      {
        stepResults := stepResults + [SkipResult(steps[j])];
      }
    }

    /** The loop over the steps. */
    method RunSteps(steps: seq<Step>) returns (finish: M.Finish)
      modifies this
      ensures M.Outcome(State(), finish) == M.Loop(env, cfg, steps, 0, old(State()), Pass)
    {
      var overall := Pass;
      for i := 0 to |steps|
        invariant M.Loop(env, cfg, steps, i, State(), overall) == M.Loop(env, cfg, steps, 0, old(State()), Pass)
      {
        var step := steps[i];
        var sr := RunStep(step, i);
        if sr.None? {
          return M.Escaped;
        }
        stepResults := stepResults + [sr.value];
        if sr.value.Bad() {
          if step.severity.Setup? {
            SkipFrom(steps, i + 1);
            return M.Verdict(Fail);
          } else if step.severity.Required? {
            overall := Fail;
          }
        }
      }
      return M.Verdict(overall);
    }

    /** The whole test, with the VM torn down on every way out. */
    method ExecuteTest(steps: seq<Step>) returns (finish: M.Finish)
      modifies this
      ensures M.Outcome(State(), finish)
              == M.Finally(env, |steps|, M.Loop(env, cfg, steps, 0, old(State()), Pass))
    {
      finish := RunSteps(steps);
      if launch.Some? {
        var out := StopVm(|steps|, launch.value);
        if out != Stopped {
          finish := M.Escaped;
        }
      }
    }
  }
}
