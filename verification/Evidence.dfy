/** What a passing step, and a passing run, prove to have happened. */
module Evidence {
  import opened Prelude
  import opened Models
  import opened Runner
  import opened Machine
  import opened RunProperties

  /** The action is the one the step is for, and its outcome is the expected one. */
  predicate Confirms(step: Step, action: Action) {
    match (step.kind, action)
    case (VmLaunch(_), ALaunch(_, LaunchRaises(message))) =>
      CheckExpected(step.expected, 1, message)
    case (VmLaunch(_), ALaunch(_, LaunchReturns(l))) =>
      CheckExpected(step.expected, if l.ok then 0 else 1, l.message)
    case (VmStop, AStop(_, Stopped)) =>
      CheckExpected(step.expected, 0, STOPPED_MESSAGE)
    case (Host(command), AShell(c, ShellExits(code, stdout, _))) =>
      c == command && CheckExpected(step.expected, code, stdout)
    case (Guest(command), AGuest(_, c, VsockReply(code, stdout, _))) =>
      c == command && CheckExpected(step.expected, code, stdout)
    case (GuestPull(src, dest), APull(_, s, d, Pulled)) =>
      s == src && d == dest && CheckExpected(step.expected, 0, "")
    case (Callable(handler), ACall(h, _, HandlerReturns(code, stdout, _))) =>
      h == handler && CheckExpected(step.expected, code, stdout)
    case _ => false
  }

  /** The last thing the step did confirms it. */
  predicate EndsConfirmed<W>(step: Step, st: RunState<W>, e: Exec<W>) {
    |st.trace| < |e.st.trace| && Confirms(step, e.st.trace[|e.st.trace| - 1].action)
  }

  /** Passed exactly on such evidence; a step that yields a result without it
      counts as failed. */
  ghost predicate Judges<W>(step: Step, st: RunState<W>, e: Exec<W>) {
    e.Done? ==>
      && (e.sr.status.Pass? <==> EndsConfirmed(step, st, e))
      && (e.sr.Bad() <==> !EndsConfirmed(step, st, e))
  }

  lemma LaunchJudges<W>(env: Env<W>, cfg: Config, step: Step, i: nat, st: RunState<W>)
    requires step.kind.VmLaunch?
    ensures Judges(step, st, LaunchStep(env, cfg, step, i, st))
  {
  }

  lemma StopJudges<W>(env: Env<W>, cfg: Config, step: Step, i: nat, st: RunState<W>)
    requires step.kind.VmStop?
    ensures Judges(step, st, StopStep(env, cfg, step, i, st))
  {
    if st.launch.Some? {
      var l := st.launch.value;
      var st1 := Journalled(env, cfg, i, l, st);
      assert st.trace <= st1.trace;
      StopEventJudges(step, st, st1, Event(i, AStop(l, env.stop(st1.world, l).1)));
    }
  }

  lemma StopEventJudges<W>(step: Step, st: RunState<W>, st1: RunState<W>, event: Event)
    requires step.kind.VmStop? && st.trace <= st1.trace && event.action.AStop?
    ensures var trace := st1.trace + [event];
            |st.trace| < |trace| && trace[|trace| - 1] == event
    ensures Confirms(step, event.action) <==>
              event.action.stopped.Stopped? && CheckExpected(step.expected, 0, STOPPED_MESSAGE)
  {
  }

  lemma OnGuestJudges<W>(env: Env<W>, step: Step, i: nat, l: Launch, st0: RunState<W>, st: RunState<W>)
    requires step.kind.Guest? || step.kind.GuestPull?
    requires st0.trace <= st.trace
    requires |st0.trace| < |st.trace| ==> !Confirms(step, st.trace[|st.trace| - 1].action)
    ensures Judges(step, st0, OnGuest(env, step, i, l, st))
  {
  }

  lemma GuestJudges<W>(env: Env<W>, step: Step, i: nat, st: RunState<W>)
    requires step.kind.Guest? || step.kind.GuestPull?
    ensures Judges(step, st, GuestStep(env, step, i, st))
  {
    GuestStepCases(env, step, i, st);
    if st.profile.Some? {
      if st.launch.Some? {
        OnGuestJudges(env, step, i, st.launch.value, st, st);
      } else {
        var (st1, out) := Start(env, i, st.profile.value, st);
        if out.LaunchReturns? {
          OnGuestJudges(env, step, i, out.launch, st, st1);
        }
      }
    }
  }

  /** A step passes exactly when the last thing it did is what the step is for
      and ended as expected; otherwise it fails. */
  lemma StepJudges<W>(env: Env<W>, cfg: Config, step: Step, i: nat, st: RunState<W>)
    ensures Judges(step, st, ExecStep(env, cfg, step, i, st))
  {
    match step.kind
    case VmLaunch(_) => LaunchJudges(env, cfg, step, i, st);
    case VmStop => StopJudges(env, cfg, step, i, st);
    case Host(_) =>
    case Callable(_) =>
    case _ => GuestJudges(env, step, i, st);
  }

  /** A `pass` verdict is backed, for every setup and required step, by an
      action of that very step that ended as the step expected. */
  lemma PassIsEvidenced<W>(env: Env<W>, cfg: Config, steps: seq<Step>, w: W, profile: Option<Profile>)
    requires ExecuteTest(env, cfg, steps, w, profile).finish == Verdict(Pass)
    ensures var trace := ExecuteTest(env, cfg, steps, w, profile).st.trace;
            forall j | 0 <= j < |steps| && !steps[j].severity.Info? ::
              exists k :: 0 <= k < |trace| && trace[k].at == j && Confirms(steps[j], trace[k].action)
  {
    var st0 := Initial(w, profile);
    var trace := ExecuteTest(env, cfg, steps, w, profile).st.trace;
    forall j | 0 <= j < |steps| && !steps[j].severity.Info?
      ensures exists k :: 0 <= k < |trace| && trace[k].at == j && Confirms(steps[j], trace[k].action)
    {
      PassMeansAllPassed(env, cfg, steps, j, w, profile);
      var st := Before(env, cfg, steps, j, st0);
      var e := ExecStep(env, cfg, steps[j], j, st);
      StepJudges(env, cfg, steps[j], j, st);
      StepGrows(env, cfg, steps[j], j, st);
      var k := |e.st.trace| - 1;
      assert OwnAction(cfg, steps[j], j, st, e.st.trace[k]);
      assert trace[k] == e.st.trace[k];
    }
  }
}
