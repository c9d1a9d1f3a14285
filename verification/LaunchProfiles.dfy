/** Which profiles are launched: the command line's settings reach every guest
    of every run, whatever the test declares, as long as its handlers leave these
    settings alone. */
module LaunchProfiles {
  import opened Prelude
  import opened Models
  import opened Runner
  import opened Machine
  import opened RunProperties
  import IdBlock

  /** The guest image is the command line's, and so is what it overrides. */
  predicate Heeds(cli: CommandLine, p: Profile) {
    && p.imagePath == cli.guestPath
    && (cli.qemu.Some? ==> p.qemuBinary == cli.qemu.value)
    && (cli.ovmf.Some? ==> p.ovmfPath == cli.ovmf)
    && (cli.debug ==> p.debug)
  }

  /** The handlers of a test leave these settings alone. */
  ghost predicate HandlersKeep<W(!new)>(env: Env<W>) {
    forall w, h, view ::
      var p := env.call(w, h, view).1;
      p.Some? ==> view.profile.Some? && SameSettings(view.profile.value, p.value)
  }

  predicate SameSettings(p: Profile, q: Profile) {
    p.imagePath == q.imagePath && p.qemuBinary == q.qemuBinary && p.ovmfPath == q.ovmfPath && p.debug == q.debug
  }

  ghost predicate AllHeed<W>(cli: CommandLine, st: RunState<W>) {
    && (st.profile.Some? ==> Heeds(cli, st.profile.value))
    && LaunchesHeed(cli, st.trace)
  }

  ghost predicate LaunchesHeed(cli: CommandLine, trace: seq<Event>) {
    forall k | 0 <= k < |trace| && trace[k].action.ALaunch? :: Heeds(cli, trace[k].action.profile)
  }

  lemma StopHeeds<W>(env: Env<W>, cli: CommandLine, cfg: Config, step: Step, i: nat, st: RunState<W>)
    requires AllHeed(cli, st)
    ensures AllHeed(cli, StopStep(env, cfg, step, i, st).st)
  {
  }

  lemma OnGuestHeeds<W>(env: Env<W>, cli: CommandLine, step: Step, i: nat, l: Launch, st: RunState<W>)
    requires step.kind.Guest? || step.kind.GuestPull?
    requires AllHeed(cli, st)
    ensures AllHeed(cli, OnGuest(env, step, i, l, st).st)
  {
  }

  lemma StartHeeds<W>(env: Env<W>, cli: CommandLine, i: nat, p: Profile, st: RunState<W>)
    requires AllHeed(cli, st) && Heeds(cli, p)
    ensures AllHeed(cli, Start(env, i, p, st).0)
  {
  }

  lemma GuestHeeds<W>(env: Env<W>, cli: CommandLine, step: Step, i: nat, st: RunState<W>)
    requires step.kind.Guest? || step.kind.GuestPull?
    requires AllHeed(cli, st)
    ensures AllHeed(cli, GuestStep(env, step, i, st).st)
  {
    GuestStepCases(env, step, i, st);
    if st.profile.Some? {
      if st.launch.Some? {
        OnGuestHeeds(env, cli, step, i, st.launch.value, st);
      } else {
        StartHeeds(env, cli, i, st.profile.value, st);
        var (st1, out) := Start(env, i, st.profile.value, st);
        if out.LaunchReturns? {
          OnGuestHeeds(env, cli, step, i, out.launch, st1);
        }
      }
    }
  }

  lemma CallHeeds<W(!new)>(env: Env<W>, cli: CommandLine, cfg: Config, step: Step, i: nat, st: RunState<W>)
    requires step.kind.Callable? && HandlersKeep(env) && AllHeed(cli, st)
    ensures AllHeed(cli, CallStep(env, cfg, step, i, st).st)
  {
  }

  lemma StepHeeds<W(!new)>(env: Env<W>, cli: CommandLine, cfg: Config, step: Step, i: nat, st: RunState<W>)
    requires HandlersKeep(env) && AllHeed(cli, st)
    ensures AllHeed(cli, ExecStep(env, cfg, step, i, st).st)
  {
    match step.kind
    case VmLaunch(g) =>
      if st.profile.Some? && st.launch.None? {
        var p := LaunchProfile(env, cfg, g, st.profile.value, st.world);
        StartHeeds(env, cli, i, p, st.(profile := Some(p)));
      }
    case VmStop => StopHeeds(env, cli, cfg, step, i, st);
    case Host(_) =>
    case Callable(_) => CallHeeds(env, cli, cfg, step, i, st);
    case _ => GuestHeeds(env, cli, step, i, st);
  }

  lemma {:induction false} LoopHeeds<W(!new)>(env: Env<W>, cli: CommandLine, cfg: Config, steps: seq<Step>, i: nat,
                                              st: RunState<W>, overall: Status)
    requires i <= |steps| && HandlersKeep(env) && AllHeed(cli, st)
    ensures AllHeed(cli, Loop(env, cfg, steps, i, st, overall).st)
    decreases |steps| - i
  {
    if i < |steps| {
      StepHeeds(env, cli, cfg, steps[i], i, st);
      var e := ExecStep(env, cfg, steps[i], i, st);
      LoopOnce(env, cfg, steps, i, st, overall, e);
      if e.Done? && !(e.sr.Bad() && steps[i].severity.Setup?) {
        LoopHeeds(env, cli, cfg, steps, i + 1, e.st.Append(e.sr), NextOverall(steps[i], e.sr, overall));
      }
    }
  }

  /** Whatever profile the test declares, every guest of its run boots the image
      given on the command line, with the command line's overrides. */
  lemma CommandLineWins<W(!new)>(env: Env<W>, cfg: Config, steps: seq<Step>, w: W, declared: Option<Profile>,
                                 cli: CommandLine, standard: Profile)
    requires HandlersKeep(env)
    ensures LaunchesHeed(cli, ExecuteTest(env, cfg, steps, w, Some(EffectiveProfile(declared, cli, standard))).st.trace)
  {
    var st0 := Initial(w, Some(EffectiveProfile(declared, cli, standard)));
    LoopHeeds(env, cli, cfg, steps, 0, st0, Pass);
  }

  /** The ID block handlers replace the profile, but keep these settings. */
  lemma IdBlockHandlersKeep<W(!new)>(base: Env<W>, t: IdBlock.Tools<W>)
    ensures HandlersKeep(IdBlock.WithHandlers(base, t))
  {
    forall w, h, view
      ensures var p := IdBlock.WithHandlers(base, t).call(w, h, view).1;
              p.Some? ==> view.profile.Some? && SameSettings(view.profile.value, p.value)
    {
      HandlerKeeps(t, w, h, view);
    }
  }

  predicate Keeps(p: Option<Profile>, q: Option<Profile>) {
    q.Some? ==> p.Some? && SameSettings(p.value, q.value)
  }

  lemma HandlerKeeps<W>(t: IdBlock.Tools<W>, w: W, h: string, view: View)
    ensures Keeps(view.profile, IdBlock.Call(t, w, h, view).profile)
  {
    match h
    case "generate_id_block" => GenerateKeeps(t, w, view.profile);
    case "set_bad_measurement" => NegativeKeeps(IdBlock.BadMeasurement, t, w, view.profile);
    case "set_incompatible_policy" => NegativeKeeps(IdBlock.SmtPolicy, t, w, view.profile);
    case "set_bad_abi_version" => NegativeKeeps(IdBlock.AbiVersion, t, w, view.profile);
    case _ =>
  }

  lemma RunKeeps<W>(t: IdBlock.Tools<W>, w: W, p: Option<Profile>, args: IdBlock.GenArgs)
    ensures Keeps(p, IdBlock.Generate(t, w, p, args).profile)
  {
  }

  lemma GenerateKeeps<W>(t: IdBlock.Tools<W>, w: W, p: Option<Profile>)
    ensures Keeps(p, IdBlock.GenerateIdBlock(t, w, p).profile)
  {
  }

  lemma NegativeKeeps<W>(n: IdBlock.Negative, t: IdBlock.Tools<W>, w: W, p: Option<Profile>)
    ensures Keeps(p, IdBlock.SetNegative(n, t, w, p).profile)
  {
    var file := IdBlock.ReadMeasurement(t.readFile(w, IdBlock.MEASUREMENT_FILE));
    if IdBlock.ReadMeta(t.vars).Some? && file.Digest? {
      RunKeeps(t, w, p, IdBlock.NegativeArgs(n, IdBlock.ReadMeta(t.vars).value, file.body));
    }
  }
}
