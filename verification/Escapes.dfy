/** Runs in worlds that let no exception out. */
module Escapes {
  import opened Prelude
  import opened Models
  import opened Machine
  import opened RunProperties

  /** Every primitive ends in a way that its runner handles. */
  ghost predicate NeverEscapes<W(!new)>(env: Env<W>) {
    && (forall w, c :: !env.shell(w, c).1.ShellEscapes?)
    && (forall w, p :: !env.boot(w, p).1.BootEscapes?)
    && (forall w, l :: !env.stop(w, l).1.StopEscapes?)
    && (forall w, l :: !env.journal(w, l).1.JournalEscapes?)
    && (forall w, l, c :: !env.guest(w, l, c).1.VsockEscapes?)
    && (forall w, l, src, dest :: !env.pull(w, l, src, dest).1.PullEscapes?)
  }

  lemma StartEnds<W(!new)>(env: Env<W>, i: nat, p: Profile, st: RunState<W>)
    requires NeverEscapes(env)
    ensures !Start(env, i, p, st).1.LaunchEscapes?
  {
  }

  lemma OnGuestEnds<W(!new)>(env: Env<W>, step: Step, i: nat, l: Launch, st: RunState<W>)
    requires NeverEscapes(env) && (step.kind.Guest? || step.kind.GuestPull?)
    ensures OnGuest(env, step, i, l, st).Done?
  {
  }

  lemma GuestEnds<W(!new)>(env: Env<W>, step: Step, i: nat, st: RunState<W>)
    requires NeverEscapes(env) && (step.kind.Guest? || step.kind.GuestPull?)
    ensures GuestStep(env, step, i, st).Done?
  {
    GuestStepCases(env, step, i, st);
    if st.profile.Some? {
      if st.launch.Some? {
        OnGuestEnds(env, step, i, st.launch.value, st);
      } else {
        StartEnds(env, i, st.profile.value, st);
        var (st1, out) := Start(env, i, st.profile.value, st);
        if out.LaunchReturns? {
          OnGuestEnds(env, step, i, out.launch, st1);
        }
      }
    }
  }

  lemma StepEnds<W(!new)>(env: Env<W>, cfg: Config, step: Step, i: nat, st: RunState<W>)
    requires NeverEscapes(env)
    ensures ExecStep(env, cfg, step, i, st).Done?
  {
    match step.kind
    case Guest(_) => GuestEnds(env, step, i, st);
    case GuestPull(_, _) => GuestEnds(env, step, i, st);
    case _ =>
  }

  lemma {:induction false} LoopEnds<W(!new)>(env: Env<W>, cfg: Config, steps: seq<Step>, i: nat, st: RunState<W>,
                                             overall: Status)
    requires i <= |steps| && NeverEscapes(env)
    ensures Loop(env, cfg, steps, i, st, overall).finish.Verdict?
    decreases |steps| - i
  {
    if i < |steps| {
      var e := ExecStep(env, cfg, steps[i], i, st);
      StepEnds(env, cfg, steps[i], i, st);
      LoopOnce(env, cfg, steps, i, st, overall, e);
      if !(e.sr.Bad() && steps[i].severity.Setup?) {
        LoopEnds(env, cfg, steps, i + 1, e.st.Append(e.sr), NextOverall(steps[i], e.sr, overall));
      }
    }
  }

  /** The teardown tried to stop a VM and failed. */
  ghost predicate TeardownFailed(trace: seq<Event>, n: nat) {
    && trace != []
    && trace[|trace| - 1].at == n
    && trace[|trace| - 1].action.AStop? && trace[|trace| - 1].action.stopped != Stopped
  }

  /** When nothing escapes, every run has one result per step, and it comes to a
      verdict unless the stop in its teardown fails. */
  lemma RunEnds<W(!new)>(env: Env<W>, cfg: Config, steps: seq<Step>, w: W, profile: Option<Profile>)
    requires NeverEscapes(env)
    ensures var out := ExecuteTest(env, cfg, steps, w, profile);
            && |out.st.results| == |steps|
            && (out.finish.Verdict? <==> !TeardownFailed(out.st.trace, |steps|))
  {
    var st0 := Initial(w, profile);
    LoopEnds(env, cfg, steps, 0, st0, Pass);
    LoopShape(env, cfg, steps, 0, st0, Pass);
    LoopInOrder(env, cfg, steps, 0, st0, Pass);
  }
}
