/** What `execute_test` does, as a function of the world it runs in.
    Module TestRun carries out the same run step by step on an object. */
module Machine {
  import opened Prelude
  import opened Models
  import opened Runner

  /** Everything a run updates: the world, the VM slot (`launch`), the profile
      in the context, the shared result list, and what has been done so far. */
  datatype RunState<W> = RunState(
    world: W,
    launch: Option<Launch>,
    profile: Option<Profile>,
    results: seq<StepResult>,
    trace: seq<Event>)
  {
    function Did(at: nat, action: Action): RunState<W> {
      this.(trace := trace + [Event(at, action)])
    }

    function Append(sr: StepResult): RunState<W> {
      this.(results := results + [sr])
    }
  }

  /** One step either yields a result or lets an exception out. */
  datatype Exec<W> = Done(st: RunState<W>, sr: StepResult) | Raised(st: RunState<W>)

  datatype Finish = Verdict(status: Status) | Escaped

  datatype Outcome<W> = Outcome(st: RunState<W>, finish: Finish)

  // ── Launching ─────────────────────────────────────────────────

  function Start<W>(env: Env<W>, i: nat, p: Profile, st: RunState<W>): (r: (RunState<W>, LaunchOutcome))
  {
    var (w, boot) := env.boot(st.world, p);
    var out := LaunchOf(p, boot);
    var st := st.(world := w).Did(i, ALaunch(p, out));
    (if out.LaunchReturns? then st.(launch := Some(out.launch)) else st, out)
  }

  /** The profile a `vm_launch` step hands to QEMU: in debug mode it names the
      guest and moves its logs into the guest's own directory. */
  function LaunchProfile<W>(env: Env<W>, cfg: Config, guestId: string, p: Profile, w: W): Profile {
    if !cfg.debug then p
    else
      var id := if guestId != "" then guestId
                else if p.guestId.Some? && p.guestId.value != "" then p.guestId.value
                else env.freshId(w);
      p.(guestId := Some(id),
         errorLog := cfg.artifactDir + "/" + id + "/qemu-error.log",
         bootLog := cfg.artifactDir + "/" + id + "/qemu-boot.log")
  }

  function LaunchStep<W>(env: Env<W>, cfg: Config, step: Step, i: nat, st: RunState<W>): Exec<W>
    requires step.kind.VmLaunch?
  {
    if st.profile.None? then
      Done(st, ErrorResult(step, "vm_launch step requires guest image / VM profile context"))
    else if st.launch.Some? then
      Done(st, ErrorResult(step, "Duplicate vm_launch step (guest is already running)"))
    else
      var p := LaunchProfile(env, cfg, step.kind.guestId, st.profile.value, st.world);
      var (st, out) := Start(env, i, p, st.(profile := Some(p)));
      if out.LaunchEscapes? then Raised(st) else Done(st, LaunchResult(step, out))
  }

  // ── Stopping ──────────────────────────────────────────────────

  function Stop<W>(env: Env<W>, i: nat, l: Launch, st: RunState<W>): (RunState<W>, StopOutcome) {
    var (w, out) := env.stop(st.world, l);
    (st.(world := w).Did(i, AStop(l, out)), out)
  }

  function StopStep<W>(env: Env<W>, cfg: Config, step: Step, i: nat, st: RunState<W>): Exec<W> {
    if st.launch.None? then
      Done(st, ErrorResult(step, "vm_stop: no running guest (run vm_launch or a guest step first)"))
    else
      var l := st.launch.value;
      var (st, journalEscaped) :=
        if cfg.debug then
          var (w, out) := env.journal(st.world, l);
          (st.(world := w).Did(i, AJournal(l)), out.JournalEscapes?)
        else (st, false);
      if journalEscaped then Raised(st)
      else
        var (st, out) := Stop(env, i, l, st);
        if out.StopEscapes? then Raised(st)
        else
          var sr := StopResult(step, out);
          Done(if sr.status.Error? then st else st.(launch := None), sr)
  }

  // ── Host, guest and callable steps ────────────────────────────

  function HostStep<W>(env: Env<W>, step: Step, i: nat, st: RunState<W>): Exec<W>
    requires step.kind.Host?
  {
    var (w, out) := env.shell(st.world, step.kind.command);
    var st := st.(world := w).Did(i, AShell(step.kind.command, out));
    if out.ShellEscapes? then Raised(st) else Done(st, ShellResult(step, out))
  }

  function OnGuest<W>(env: Env<W>, step: Step, i: nat, l: Launch, st: RunState<W>): Exec<W>
    requires step.kind.Guest? || step.kind.GuestPull?
  {
    if !l.ok then Done(st, ErrorResult(step, l.message))
    else if step.kind.Guest? then
      var (w, out) := env.guest(st.world, l, step.kind.command);
      var st := st.(world := w).Did(i, AGuest(l, step.kind.command, out));
      if out.VsockEscapes? then Raised(st) else Done(st, GuestResult(step, out))
    else
      var (w, out) := env.pull(st.world, l, step.kind.guestSrc, step.kind.hostDest);
      var st := st.(world := w).Did(i, APull(l, step.kind.guestSrc, step.kind.hostDest, out));
      if out.PullEscapes? then Raised(st)
      else Done(st, PullResult(step, step.kind.guestSrc, step.kind.hostDest, out))
  }

  /** Guest steps start the VM themselves when none is running. */
  function GuestStep<W>(env: Env<W>, step: Step, i: nat, st: RunState<W>): Exec<W>
    requires step.kind.Guest? || step.kind.GuestPull?
  {
    if st.profile.None? then
      Done(st, ErrorResult(step, "Guest steps require a guest image path and VM profile"))
    else if st.launch.Some? then
      OnGuest(env, step, i, st.launch.value, st)
    else
      var (st, out) := Start(env, i, st.profile.value, st);
      match out
      case LaunchEscapes(_) => Raised(st)
      case LaunchRaises(message) => Done(st, ErrorResult(step, message))
      case LaunchReturns(l) => OnGuest(env, step, i, l, st)
  }

  function ViewOf<W>(cfg: Config, st: RunState<W>): View {
    View(st.profile, st.launch, st.results, cfg.allowHostChanges)
  }

  function CallStep<W>(env: Env<W>, cfg: Config, step: Step, i: nat, st: RunState<W>): Exec<W>
    requires step.kind.Callable?
  {
    var view := ViewOf(cfg, st);
    var (w, p, out) := env.call(st.world, step.kind.handler, view);
    Done(st.(world := w, profile := p).Did(i, ACall(step.kind.handler, view, out)),
         CallResult(step, out))
  }

  // ── The loop ──────────────────────────────────────────────────

  function ExecStep<W>(env: Env<W>, cfg: Config, step: Step, i: nat, st: RunState<W>): Exec<W> {
    match step.kind
    case VmLaunch(_) => LaunchStep(env, cfg, step, i, st)
    case VmStop => StopStep(env, cfg, step, i, st)
    case Host(_) => HostStep(env, step, i, st)
    case Guest(_) => GuestStep(env, step, i, st)
    case GuestPull(_, _) => GuestStep(env, step, i, st)
    case Callable(_) => CallStep(env, cfg, step, i, st)
  }

  function Skips(steps: seq<Step>): seq<StepResult> {
    seq(|steps|, i requires 0 <= i < |steps| => SkipResult(steps[i]))
  }

  function NextOverall(step: Step, sr: StepResult, overall: Status): Status {
    if sr.Bad() && step.severity.Required? then Fail else overall
  }

  function Loop<W>(env: Env<W>, cfg: Config, steps: seq<Step>, i: nat, st: RunState<W>, overall: Status): Outcome<W>
    requires i <= |steps|
    decreases |steps| - i
  {
    if i == |steps| then Outcome(st, Verdict(overall))
    else
      match ExecStep(env, cfg, steps[i], i, st)
      case Raised(st) => Outcome(st, Escaped)
      case Done(st, sr) =>
        var st := st.Append(sr);
        if sr.Bad() && steps[i].severity.Setup? then
          Outcome(st.(results := st.results + Skips(steps[i + 1..])), Verdict(Fail))
        else
          Loop(env, cfg, steps, i + 1, st, NextOverall(steps[i], sr, overall))
  }

  /** The `finally` block: whatever is still tracked is stopped. An exception
      from that stop itself replaces the outcome. */
  function Finally<W>(env: Env<W>, n: nat, out: Outcome<W>): Outcome<W> {
    if out.st.launch.None? then out
    else
      var (st, stopped) := Stop(env, n, out.st.launch.value, out.st);
      Outcome(st, if stopped.Stopped? then out.finish else Escaped)
  }

  function Initial<W>(w: W, profile: Option<Profile>): RunState<W> {
    RunState(w, None, profile, [], [])
  }

  /** `execute_test` from the point where the plan has been loaded. */
  function ExecuteTest<W>(env: Env<W>, cfg: Config, steps: seq<Step>, w: W, profile: Option<Profile>): Outcome<W> {
    Finally(env, |steps|, Loop(env, cfg, steps, 0, Initial(w, profile), Pass))
  }
}
