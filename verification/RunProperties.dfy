/** Properties of every run of every plan, whatever the world does. */
module RunProperties {
  import opened Prelude
  import opened Models
  import opened Machine

  // ── One step ──────────────────────────────────────────────────

  /** The actions after `st.trace` all belong to step `i`; commands and handlers
      are the step's own, and a handler was shown the state before the step. */
  ghost predicate Grown<W>(cfg: Config, step: Step, i: nat, st: RunState<W>, trace: seq<Event>) {
    && st.trace <= trace
    && forall k | |st.trace| <= k < |trace| :: OwnAction(cfg, step, i, st, trace[k])
  }

  ghost predicate OwnAction<W>(cfg: Config, step: Step, i: nat, st: RunState<W>, e: Event) {
    && e.at == i
    && (e.action.ACall? ==> step.kind == Callable(e.action.handler) && e.action.view == ViewOf(cfg, st))
    && (e.action.AShell? ==> step.kind == Host(e.action.command))
  }

  lemma GrowOne<W>(cfg: Config, step: Step, i: nat, st: RunState<W>, trace: seq<Event>, e: Event)
    requires Grown(cfg, step, i, st, trace) && OwnAction(cfg, step, i, st, e)
    ensures Grown(cfg, step, i, st, trace + [e])
  {
  }

  ghost predicate Grew<W>(cfg: Config, step: Step, i: nat, st: RunState<W>, e: Exec<W>) {
    && e.st.results == st.results
    && Grown(cfg, step, i, st, e.st.trace)
    && (e.Done? ==> e.sr.step == step && !e.sr.status.Skip?)
  }

  lemma StartGrows<W>(env: Env<W>, cfg: Config, step: Step, i: nat, p: Profile, st: RunState<W>)
    ensures Start(env, i, p, st).0.results == st.results
    ensures Grown(cfg, step, i, st, Start(env, i, p, st).0.trace)
  {
  }

  lemma OnGuestGrows<W>(env: Env<W>, cfg: Config, step: Step, i: nat, l: Launch, st0: RunState<W>, st: RunState<W>)
    requires step.kind.Guest? || step.kind.GuestPull?
    requires st.results == st0.results && Grown(cfg, step, i, st0, st.trace)
    ensures Grew(cfg, step, i, st0, OnGuest(env, step, i, l, st))
  {
  }

  lemma StopGrows<W>(env: Env<W>, cfg: Config, step: Step, i: nat, st: RunState<W>)
    ensures Grew(cfg, step, i, st, StopStep(env, cfg, step, i, st))
  {
    if st.launch.Some? {
      var l := st.launch.value;
      var st1 := st;
      if cfg.debug {
        st1 := st.(world := env.journal(st.world, l).0).Did(i, AJournal(l));
        GrowOne(cfg, step, i, st, st.trace, Event(i, AJournal(l)));
      }
      GrowOne(cfg, step, i, st, st1.trace, Event(i, AStop(l, env.stop(st1.world, l).1)));
    }
  }

  lemma GuestGrows<W>(env: Env<W>, cfg: Config, step: Step, i: nat, st: RunState<W>)
    requires step.kind.Guest? || step.kind.GuestPull?
    ensures Grew(cfg, step, i, st, GuestStep(env, step, i, st))
  {
    if st.profile.Some? {
      if st.launch.Some? {
        OnGuestGrows(env, cfg, step, i, st.launch.value, st, st);
      } else {
        StartGrows(env, cfg, step, i, st.profile.value, st);
        var (st1, out) := Start(env, i, st.profile.value, st);
        if out.LaunchReturns? {
          OnGuestGrows(env, cfg, step, i, out.launch, st, st1);
        }
      }
    }
  }

  lemma LaunchGrows<W>(env: Env<W>, cfg: Config, step: Step, i: nat, st: RunState<W>)
    requires step.kind.VmLaunch?
    ensures Grew(cfg, step, i, st, LaunchStep(env, cfg, step, i, st))
  {
    if st.profile.Some? && st.launch.None? {
      var p := LaunchProfile(env, cfg, step.kind.guestId, st.profile.value, st.world);
      StartGrows(env, cfg, step, i, p, st.(profile := Some(p)));
    }
  }

  /** A step leaves earlier results alone, records its actions under its own
      index, and shows a handler exactly the state before the step. */
  lemma StepGrows<W>(env: Env<W>, cfg: Config, step: Step, i: nat, st: RunState<W>)
    ensures Grew(cfg, step, i, st, ExecStep(env, cfg, step, i, st))
  {
    match step.kind
    case VmLaunch(_) => LaunchGrows(env, cfg, step, i, st);
    case VmStop => StopGrows(env, cfg, step, i, st);
    case Guest(_) => GuestGrows(env, cfg, step, i, st);
    case GuestPull(_, _) => GuestGrows(env, cfg, step, i, st);
    case Host(c) =>
      GrowOne(cfg, step, i, st, st.trace, Event(i, AShell(c, env.shell(st.world, c).1)));
    case Callable(h) =>
      GrowOne(cfg, step, i, st, st.trace,
              Event(i, ACall(h, ViewOf(cfg, st), env.call(st.world, h, ViewOf(cfg, st)).2)));
  }

  /** One turn of the loop, with the step's outcome named. */
  lemma LoopOnce<W>(env: Env<W>, cfg: Config, steps: seq<Step>, i: nat, st: RunState<W>, overall: Status, e: Exec<W>)
    requires i < |steps| && e == ExecStep(env, cfg, steps[i], i, st)
    ensures var out := Loop(env, cfg, steps, i, st, overall);
            && (e.Raised? ==> out == Outcome(e.st, Escaped))
            && (e.Done? ==>
                  var st' := e.st.Append(e.sr);
                  if e.sr.Bad() && steps[i].severity.Setup? then
                    out == Outcome(st'.(results := st'.results + Skips(steps[i + 1..])), Verdict(Fail))
                  else
                    out == Loop(env, cfg, steps, i + 1, st', NextOverall(steps[i], e.sr, overall)))
  {
  }

  // ── The verdict ───────────────────────────────────────────────

  /** Step `f` is a setup step that failed, which ends the run. */
  predicate Halts(steps: seq<Step>, rs: seq<StepResult>, f: nat) {
    f < |rs| && f < |steps| && steps[f].severity.Setup? && rs[f].Bad()
  }

  predicate HaltsBefore(steps: seq<Step>, rs: seq<StepResult>, k: nat) {
    exists f :: 0 <= f < k && Halts(steps, rs, f)
  }

  /** A setup or required step failed. */
  predicate Blemished(steps: seq<Step>, rs: seq<StepResult>) {
    exists k :: 0 <= k < |rs| && k < |steps| && rs[k].Bad() && !steps[k].severity.Info?
  }

  ghost predicate Faithful(steps: seq<Step>, rs: seq<StepResult>) {
    && |rs| <= |steps|
    && forall k | 0 <= k < |rs| :: rs[k].step == steps[k]
  }

  /** What the loop has done so far, before step `i`. */
  ghost predicate Midway<W>(cfg: Config, steps: seq<Step>, i: nat, st: RunState<W>, overall: Status) {
    && |st.results| == i <= |steps|
    && Faithful(steps, st.results)
    && (forall k | 0 <= k < i :: !st.results[k].status.Skip? && !Halts(steps, st.results, k))
    && overall == (if Blemished(steps, st.results) then Fail else Pass)
    && TraceFits(cfg, steps, st.results, st.trace, i)
  }

  /** Every action belongs to a step below `n`, and handlers were shown
      precisely the results of the steps before theirs. */
  predicate Owned(step: Step, action: Action) {
    && (action.ACall? ==> step.kind == Callable(action.handler))
    && (action.AShell? ==> step.kind == Host(action.command))
  }

  ghost predicate TraceFits(cfg: Config, steps: seq<Step>, rs: seq<StepResult>, trace: seq<Event>, n: nat) {
    forall k | 0 <= k < |trace| ::
      && trace[k].at < n <= |steps|
      && Owned(steps[trace[k].at], trace[k].action)
      && (trace[k].action.ACall? ==>
            && trace[k].at <= |rs|
            && trace[k].action.view.results == rs[..trace[k].at]
            && trace[k].action.view.allowHostChanges == cfg.allowHostChanges)
  }

  ghost predicate Shaped<W>(cfg: Config, steps: seq<Step>, st: RunState<W>, out: Outcome<W>) {
    && Faithful(steps, out.st.results)
    && st.results <= out.st.results
    && st.trace <= out.st.trace
    && TraceFits(cfg, steps, out.st.results, out.st.trace, |steps|)
    && SkipsAfterHalt(steps, out.st.results)
    && IdleAfterHalt(steps, out.st.results, out.st.trace)
    && (out.finish.Verdict? ==>
          && |out.st.results| == |steps|
          && out.finish.status == if Blemished(steps, out.st.results) then Fail else Pass)
  }

  ghost predicate SkipsAfterHalt(steps: seq<Step>, rs: seq<StepResult>) {
    forall k | 0 <= k < |rs| :: rs[k].status.Skip? <==> HaltsBefore(steps, rs, k)
  }

  ghost predicate IdleAfterHalt(steps: seq<Step>, rs: seq<StepResult>, trace: seq<Event>) {
    forall k | 0 <= k < |trace| :: !HaltsBefore(steps, rs, trace[k].at)
  }

  lemma TraceFitsNext<W>(cfg: Config, steps: seq<Step>, i: nat, st: RunState<W>, trace: seq<Event>, sr: StepResult)
    requires i < |steps|
    requires |st.results| == i && TraceFits(cfg, steps, st.results, st.trace, i) && Grown(cfg, steps[i], i, st, trace)
    ensures TraceFits(cfg, steps, st.results + [sr], trace, i + 1)
    ensures TraceFits(cfg, steps, st.results, trace, i + 1)
  {
  }

  lemma MidwayNext<W>(cfg: Config, steps: seq<Step>, i: nat, st: RunState<W>, overall: Status, e: Exec<W>)
    requires i < |steps| && Midway(cfg, steps, i, st, overall)
    requires Grew(cfg, steps[i], i, st, e) && e.Done?
    requires !(e.sr.Bad() && steps[i].severity.Setup?)
    ensures Midway(cfg, steps, i + 1, e.st.Append(e.sr), NextOverall(steps[i], e.sr, overall))
  {
  }

  lemma HaltedShape<W>(cfg: Config, steps: seq<Step>, i: nat, st: RunState<W>, overall: Status, e: Exec<W>,
                       out: Outcome<W>)
    requires i < |steps| && Midway(cfg, steps, i, st, overall)
    requires Grew(cfg, steps[i], i, st, e) && e.Done?
    requires e.sr.Bad() && steps[i].severity.Setup?
    requires out.st.results == (st.results + [e.sr]) + Skips(steps[i + 1..])
    requires out.st.trace == e.st.trace && out.finish == Verdict(Fail)
    ensures Shaped(cfg, steps, st, out)
  {
    var rs := out.st.results;
    TraceFitsNext(cfg, steps, i, st, e.st.trace, e.sr);
    assert rs[i] == e.sr && Halts(steps, rs, i);
    assert forall k | 0 <= k < i :: rs[k] == st.results[k];
    assert forall k | i < k < |rs| :: rs[k] == SkipResult(steps[k]);
    forall k | 0 <= k <= i
      ensures !HaltsBefore(steps, rs, k)
    {
      assert forall f | 0 <= f < k :: Halts(steps, rs, f) <==> Halts(steps, st.results, f);
    }
    forall k | 0 <= k < |out.st.trace| && out.st.trace[k].action.ACall?
      ensures out.st.trace[k].action.view.results == rs[..out.st.trace[k].at]
    {
      var n := out.st.trace[k].at;
      assert n <= i;
      assert rs[..n] == (st.results + [e.sr])[..n];
    }
  }

  lemma RaisedShape<W>(cfg: Config, steps: seq<Step>, i: nat, st: RunState<W>, overall: Status, e: Exec<W>)
    requires i < |steps| && Midway(cfg, steps, i, st, overall)
    requires Grew(cfg, steps[i], i, st, e) && e.Raised?
    ensures Shaped(cfg, steps, st, Outcome(e.st, Escaped))
  {
  }

  lemma EndShape<W>(cfg: Config, steps: seq<Step>, st: RunState<W>, overall: Status)
    requires Midway(cfg, steps, |steps|, st, overall)
    ensures Shaped(cfg, steps, st, Outcome(st, Verdict(overall)))
  {
  }

  lemma ShapedBefore<W>(cfg: Config, steps: seq<Step>, i: nat, st: RunState<W>, e: Exec<W>, out: Outcome<W>)
    requires i < |steps| && Grew(cfg, steps[i], i, st, e) && e.Done?
    requires Shaped(cfg, steps, e.st.Append(e.sr), out)
    ensures Shaped(cfg, steps, st, out)
  {
  }

  lemma {:induction false} LoopShape<W>(env: Env<W>, cfg: Config, steps: seq<Step>, i: nat, st: RunState<W>,
                                        overall: Status)
    requires Midway(cfg, steps, i, st, overall)
    ensures Shaped(cfg, steps, st, Loop(env, cfg, steps, i, st, overall))
    decreases |steps| - i
  {
    if i < |steps| {
      StepGrows(env, cfg, steps[i], i, st);
      var e := ExecStep(env, cfg, steps[i], i, st);
      var out := Loop(env, cfg, steps, i, st, overall);
      LoopOnce(env, cfg, steps, i, st, overall, e);
      if e.Raised? {
        RaisedShape(cfg, steps, i, st, overall, e);
      } else if e.sr.Bad() && steps[i].severity.Setup? {
        HaltedShape(cfg, steps, i, st, overall, e, out);
      } else {
        MidwayNext(cfg, steps, i, st, overall, e);
        LoopShape(env, cfg, steps, i + 1, e.st.Append(e.sr), NextOverall(steps[i], e.sr, overall));
        ShapedBefore(cfg, steps, i, st, e, out);
      }
    } else {
      EndShape(cfg, steps, st, overall);
    }
  }

  /** A completed run has one result per step, in plan order. Its skips are
      exactly the steps after the first failed setup step, and none of those
      took any action. The verdict is `pass` iff no setup or required step
      failed. Every handler saw exactly the results of the steps before it. */
  lemma VerdictCharacterised<W>(env: Env<W>, cfg: Config, steps: seq<Step>, w: W, profile: Option<Profile>)
    ensures var out := ExecuteTest(env, cfg, steps, w, profile);
            var rs, trace := out.st.results, out.st.trace;
            && Faithful(steps, rs)
            && (forall k | 0 <= k < |rs| :: rs[k].status.Skip? <==> HaltsBefore(steps, rs, k))
            && (forall k | 0 <= k < |trace| && trace[k].at < |rs| :: !rs[trace[k].at].status.Skip?)
            && (forall k | 0 <= k < |trace| && trace[k].at < |steps| :: Owned(steps[trace[k].at], trace[k].action))
            && (forall k | 0 <= k < |trace| && trace[k].action.ACall? ::
                  && trace[k].at <= |rs|
                  && trace[k].action.view.results == rs[..trace[k].at])
            && (out.finish.Verdict? ==>
                  && |rs| == |steps|
                  && out.finish.status == if Blemished(steps, rs) then Fail else Pass)
  {
    LoopShape(env, cfg, steps, 0, Initial(w, profile), Pass);
  }

  // ── Order ─────────────────────────────────────────────────────

  /** Actions are recorded in the order of the steps that took them. */
  ghost predicate InOrder(trace: seq<Event>) {
    forall a, b | 0 <= a < b < |trace| :: trace[a].at <= trace[b].at
  }

  ghost predicate OrderedBelow(trace: seq<Event>, n: nat) {
    InOrder(trace) && forall k | 0 <= k < |trace| :: trace[k].at < n
  }

  lemma GrownInOrder<W>(cfg: Config, step: Step, i: nat, st: RunState<W>, trace: seq<Event>)
    requires OrderedBelow(st.trace, i) && Grown(cfg, step, i, st, trace)
    ensures OrderedBelow(trace, i + 1)
  {
    forall k | 0 <= k < |trace|
      ensures trace[k].at < i + 1
      ensures k < |st.trace| ==> trace[k] == st.trace[k]
      ensures k >= |st.trace| ==> trace[k].at == i
    {
      if k >= |st.trace| {
        assert OwnAction(cfg, step, i, st, trace[k]);
      }
    }
  }

  lemma {:induction false} LoopInOrder<W>(env: Env<W>, cfg: Config, steps: seq<Step>, i: nat, st: RunState<W>,
                                          overall: Status)
    requires i <= |steps| && OrderedBelow(st.trace, i)
    ensures OrderedBelow(Loop(env, cfg, steps, i, st, overall).st.trace, |steps|)
    decreases |steps| - i
  {
    if i < |steps| {
      var e := ExecStep(env, cfg, steps[i], i, st);
      StepGrows(env, cfg, steps[i], i, st);
      GrownInOrder(cfg, steps[i], i, st, e.st.trace);
      LoopOnce(env, cfg, steps, i, st, overall, e);
      if e.Done? && !(e.sr.Bad() && steps[i].severity.Setup?) {
        LoopInOrder(env, cfg, steps, i + 1, e.st.Append(e.sr), NextOverall(steps[i], e.sr, overall));
      }
    }
  }

  /** On every run the actions of the steps follow each other in plan order,
      and the teardown comes last. */
  lemma ActionsInOrder<W>(env: Env<W>, cfg: Config, steps: seq<Step>, w: W, profile: Option<Profile>)
    ensures InOrder(ExecuteTest(env, cfg, steps, w, profile).st.trace)
    ensures InOrder(Loop(env, cfg, steps, 0, Initial(w, profile), Pass).st.trace)
  {
    LoopInOrder(env, cfg, steps, 0, Initial(w, profile), Pass);
  }

  // ── The VM slot ───────────────────────────────────────────────

  /** What an action leaves tracked. */
  function After(slot: Option<Launch>, action: Action): Option<Launch> {
    match action
    case ALaunch(_, LaunchReturns(l)) => Some(l)
    case AStop(_, Stopped) => None
    case _ => slot
  }

  /** The handle a history leaves tracked. */
  ghost function Slot(trace: seq<Event>): Option<Launch> {
    if trace == [] then None else After(Slot(trace[..|trace| - 1]), trace[|trace| - 1].action)
  }

  /** Launches need an empty slot; stops and journal reads address the tracked
      handle; guest commands and pulls address a tracked handle that booted. */
  ghost predicate Allowed(slot: Option<Launch>, action: Action) {
    match action
    case ALaunch(_, _) => slot.None?
    case AStop(l, _) => slot == Some(l)
    case AJournal(l) => slot == Some(l)
    case AGuest(l, _, _) => slot == Some(l) && l.ok
    case APull(l, _, _, _) => slot == Some(l) && l.ok
    case AShell(_, _) => true
    case ACall(_, view, _) => view.launch == slot
  }

  ghost predicate AllowedAt(trace: seq<Event>, k: nat) {
    k < |trace| && Allowed(Slot(trace[..k]), trace[k].action)
  }

  ghost predicate Disciplined(trace: seq<Event>) {
    forall k | 0 <= k < |trace| :: AllowedAt(trace, k)
  }

  ghost predicate Keeps(trace: seq<Event>, launch: Option<Launch>) {
    Disciplined(trace) && Slot(trace) == launch
  }

  ghost predicate Tracks<W>(st: RunState<W>) {
    Keeps(st.trace, st.launch)
  }

  lemma Extend(trace: seq<Event>, launch: Option<Launch>, e: Event)
    requires Keeps(trace, launch) && Allowed(launch, e.action)
    ensures Keeps(trace + [e], After(launch, e.action))
  {
    var t := trace + [e];
    assert t[..|t| - 1] == trace;
    forall k | 0 <= k < |t|
      ensures AllowedAt(t, k)
    {
      if k < |trace| {
        assert AllowedAt(trace, k) && t[..k] == trace[..k];
      }
    }
  }

  lemma StartTracks<W>(env: Env<W>, i: nat, p: Profile, st: RunState<W>)
    requires Tracks(st) && st.launch.None?
    ensures Tracks(Start(env, i, p, st).0)
  {
    Extend(st.trace, st.launch, Event(i, ALaunch(p, Start(env, i, p, st).1)));
  }

  lemma OnGuestTracks<W>(env: Env<W>, step: Step, i: nat, l: Launch, st: RunState<W>)
    requires step.kind.Guest? || step.kind.GuestPull?
    requires Tracks(st) && st.launch == Some(l)
    ensures Tracks(OnGuest(env, step, i, l, st).st)
  {
    if l.ok {
      if step.kind.Guest? {
        Extend(st.trace, st.launch,
               Event(i, AGuest(l, step.kind.command, env.guest(st.world, l, step.kind.command).1)));
      } else {
        var k := step.kind;
        Extend(st.trace, st.launch,
               Event(i, APull(l, k.guestSrc, k.hostDest, env.pull(st.world, l, k.guestSrc, k.hostDest).1)));
      }
    }
  }

  lemma StopTracks<W>(env: Env<W>, i: nat, l: Launch, st: RunState<W>)
    requires Tracks(st) && st.launch == Some(l)
    ensures var (st', out) := Stop(env, i, l, st);
            && st'.launch == st.launch
            && Keeps(st'.trace, if out.Stopped? then None else st.launch)
  {
    Extend(st.trace, st.launch, Event(i, AStop(l, env.stop(st.world, l).1)));
  }

  /** The state after the journal is read, as every stop step does in debug mode. */
  ghost function Journalled<W>(env: Env<W>, cfg: Config, i: nat, l: Launch, st: RunState<W>): RunState<W> {
    if cfg.debug then st.(world := env.journal(st.world, l).0).Did(i, AJournal(l)) else st
  }

  lemma JournalTracks<W>(env: Env<W>, cfg: Config, i: nat, l: Launch, st: RunState<W>)
    requires Tracks(st) && st.launch == Some(l)
    ensures Tracks(Journalled(env, cfg, i, l, st))
  {
    Extend(st.trace, st.launch, Event(i, AJournal(l)));
  }

  lemma StopStepTracks<W>(env: Env<W>, cfg: Config, step: Step, i: nat, st: RunState<W>)
    requires Tracks(st)
    ensures Tracks(StopStep(env, cfg, step, i, st).st)
  {
    if st.launch.Some? {
      var l := st.launch.value;
      JournalTracks(env, cfg, i, l, st);
      StopTracks(env, i, l, Journalled(env, cfg, i, l, st));
    }
  }

  /** A guest step does nothing, starts a VM, or goes on with the tracked one. */
  lemma GuestStepCases<W>(env: Env<W>, step: Step, i: nat, st: RunState<W>)
    requires step.kind.Guest? || step.kind.GuestPull?
    ensures st.profile.None? ==> GuestStep(env, step, i, st).st == st
    ensures st.profile.Some? && st.launch.Some? ==>
              GuestStep(env, step, i, st) == OnGuest(env, step, i, st.launch.value, st)
    ensures st.profile.Some? && st.launch.None? ==>
              var (st1, out) := Start(env, i, st.profile.value, st);
              if out.LaunchReturns? then
                st1.launch == Some(out.launch) && GuestStep(env, step, i, st) == OnGuest(env, step, i, out.launch, st1)
              else GuestStep(env, step, i, st).st == st1
  {
  }

  lemma GuestTracks<W>(env: Env<W>, step: Step, i: nat, st: RunState<W>)
    requires step.kind.Guest? || step.kind.GuestPull?
    requires Tracks(st)
    ensures Tracks(GuestStep(env, step, i, st).st)
  {
    GuestStepCases(env, step, i, st);
    if st.profile.Some? {
      if st.launch.None? {
        StartTracks(env, i, st.profile.value, st);
        var (st1, out) := Start(env, i, st.profile.value, st);
        if out.LaunchReturns? {
          OnGuestTracks(env, step, i, out.launch, st1);
        }
      } else {
        OnGuestTracks(env, step, i, st.launch.value, st);
      }
    }
  }

  lemma LaunchTracks<W>(env: Env<W>, cfg: Config, step: Step, i: nat, st: RunState<W>)
    requires step.kind.VmLaunch? && Tracks(st)
    ensures Tracks(LaunchStep(env, cfg, step, i, st).st)
  {
    if st.profile.Some? && st.launch.None? {
      var p := LaunchProfile(env, cfg, step.kind.guestId, st.profile.value, st.world);
      StartTracks(env, i, p, st.(profile := Some(p)));
    }
  }

  lemma HostTracks<W>(env: Env<W>, step: Step, i: nat, st: RunState<W>)
    requires step.kind.Host? && Tracks(st)
    ensures Tracks(HostStep(env, step, i, st).st)
  {
    Extend(st.trace, st.launch, Event(i, AShell(step.kind.command, env.shell(st.world, step.kind.command).1)));
  }

  lemma CallTracks<W>(env: Env<W>, cfg: Config, step: Step, i: nat, st: RunState<W>)
    requires step.kind.Callable? && Tracks(st)
    ensures Tracks(CallStep(env, cfg, step, i, st).st)
  {
    var view := ViewOf(cfg, st);
    Extend(st.trace, st.launch,
           Event(i, ACall(step.kind.handler, view, env.call(st.world, step.kind.handler, view).2)));
  }

  /** Every step keeps the slot discipline, whether it ends or raises. */
  lemma StepTracks<W>(env: Env<W>, cfg: Config, step: Step, i: nat, st: RunState<W>)
    requires Tracks(st)
    ensures Tracks(ExecStep(env, cfg, step, i, st).st)
  {
    match step.kind
    case VmLaunch(_) => LaunchTracks(env, cfg, step, i, st);
    case VmStop => StopStepTracks(env, cfg, step, i, st);
    case Host(_) => HostTracks(env, step, i, st);
    case Callable(_) => CallTracks(env, cfg, step, i, st);
    case _ => GuestTracks(env, step, i, st);
  }

  lemma {:induction false} LoopTracks<W>(env: Env<W>, cfg: Config, steps: seq<Step>, i: nat, st: RunState<W>,
                                         overall: Status)
    requires i <= |steps| && Tracks(st)
    ensures Tracks(Loop(env, cfg, steps, i, st, overall).st)
    decreases |steps| - i
  {
    if i < |steps| {
      StepTracks(env, cfg, steps[i], i, st);
      var e := ExecStep(env, cfg, steps[i], i, st);
      if e.Done? && !(e.sr.Bad() && steps[i].severity.Setup?) {
        LoopTracks(env, cfg, steps, i + 1, e.st.Append(e.sr),
                   NextOverall(steps[i], e.sr, overall));
      }
    }
  }

  ghost predicate ReturnedAt(trace: seq<Event>, k: nat, l: Launch) {
    k < |trace| && trace[k].action.ALaunch? && trace[k].action.launched == LaunchReturns(l)
  }

  /** `l` was stopped at `j`, with no other launch since `k`. */
  ghost predicate StoppedAt(trace: seq<Event>, k: nat, j: nat, l: Launch) {
    && k < j < |trace|
    && trace[j].action == AStop(l, Stopped)
    && NoLaunch(trace, k, j)
  }

  ghost predicate NoLaunch(trace: seq<Event>, k: nat, j: nat) {
    forall m | k < m < j && m < |trace| :: !trace[m].action.ALaunch?
  }

  ghost predicate StillTracked(trace: seq<Event>, k: nat, l: Launch) {
    && k < |trace|
    && Slot(trace) == Some(l)
    && NoLaunch(trace, k, |trace|)
  }

  /** The last action of the run is the teardown's attempt to stop `l`, which
      failed; nothing was launched since `k`. */
  ghost predicate LostInTeardown(trace: seq<Event>, n: nat, k: nat, l: Launch) {
    var last := |trace| - 1;
    && k < last
    && trace[last].at == n
    && trace[last].action.AStop? && trace[last].action.launch == l && trace[last].action.stopped != Stopped
    && NoLaunch(trace, k, last)
  }

  lemma DisciplinedBefore(trace: seq<Event>)
    requires Disciplined(trace) && trace != []
    ensures Disciplined(trace[..|trace| - 1])
    ensures Allowed(Slot(trace[..|trace| - 1]), trace[|trace| - 1].action)
  {
    var t := trace[..|trace| - 1];
    forall k | 0 <= k < |t|
      ensures AllowedAt(t, k)
    {
      assert AllowedAt(trace, k) && t[..k] == trace[..k];
    }
    assert AllowedAt(trace, |t|);
  }

  /** In a disciplined history a handle that was returned is still tracked, or
      was stopped before anything else was launched. A stop that failed does
      not count: the handle stays tracked. */
  lemma {:induction false} LaunchedThenTrackedOrStopped(trace: seq<Event>, k: nat, l: Launch)
    requires Disciplined(trace) && ReturnedAt(trace, k, l)
    ensures (exists j :: StoppedAt(trace, k, j, l)) || StillTracked(trace, k, l)
    decreases |trace|
  {
    if k < |trace| - 1 {
      DisciplinedBefore(trace);
      var t := trace[..|trace| - 1];
      LaunchedThenTrackedOrStopped(t, k, l);
      if j :| StoppedAt(t, k, j, l) {
        StoppedLater(t, trace, k, j, l);
      } else {
        TrackedOneMore(trace, k, l);
      }
    }
  }

  lemma StoppedLater(t: seq<Event>, trace: seq<Event>, k: nat, j: nat, l: Launch)
    requires t <= trace && StoppedAt(t, k, j, l)
    ensures StoppedAt(trace, k, j, l)
  {
  }

  lemma TrackedOneMore(trace: seq<Event>, k: nat, l: Launch)
    requires Disciplined(trace) && trace != [] && StillTracked(trace[..|trace| - 1], k, l)
    ensures StoppedAt(trace, k, |trace| - 1, l) || StillTracked(trace, k, l)
  {
    DisciplinedBefore(trace);
    assert forall m | k < m < |trace| - 1 :: trace[m] == trace[..|trace| - 1][m];
  }

  /** What the teardown adds to a history in which `l` is still tracked. */
  lemma TeardownStops(trace: seq<Event>, n: nat, k: nat, l: Launch, out: StopOutcome)
    requires StillTracked(trace, k, l)
    ensures var t := trace + [Event(n, AStop(l, out))];
            if out.Stopped? then StoppedAt(t, k, |trace|, l) else LostInTeardown(t, n, k, l)
  {
    var t := trace + [Event(n, AStop(l, out))];
    assert forall m | 0 <= m < |trace| :: t[m] == trace[m];
    assert t[|trace|] == Event(n, AStop(l, out));
  }

  ghost predicate Conserved(trace: seq<Event>, n: nat, k: nat, l: Launch) {
    (exists j :: StoppedAt(trace, k, j, l)) || LostInTeardown(trace, n, k, l)
  }

  /** Handle conservation, on every run, including those cut short by a failed
      setup step or an escaping exception: the slot discipline holds throughout,
      and every handle a launch ever returned is stopped before any other launch,
      by a `vm_stop` step or by the final teardown, which makes the last attempt
      when every stop before it failed. In a run that comes to a verdict every
      handle was stopped. */
  lemma HandlesConserved<W>(env: Env<W>, cfg: Config, steps: seq<Step>, w: W, profile: Option<Profile>)
    ensures var out := ExecuteTest(env, cfg, steps, w, profile);
            var trace := out.st.trace;
            && Disciplined(trace)
            && (forall k, l | ReturnedAt(trace, k, l) :: Conserved(trace, |steps|, k, l))
            && (out.finish.Verdict? ==>
                  forall k, l | ReturnedAt(trace, k, l) :: exists j :: StoppedAt(trace, k, j, l))
  {
    var mid := Loop(env, cfg, steps, 0, Initial(w, profile), Pass);
    LoopTracks(env, cfg, steps, 0, Initial(w, profile), Pass);
    var trace := ExecuteTest(env, cfg, steps, w, profile).st.trace;
    if mid.st.launch.Some? {
      var l := mid.st.launch.value;
      Extend(mid.st.trace, mid.st.launch, Event(|steps|, AStop(l, env.stop(mid.st.world, l).1)));
    }
    forall k, l | ReturnedAt(trace, k, l)
      ensures Conserved(trace, |steps|, k, l)
      ensures ExecuteTest(env, cfg, steps, w, profile).finish.Verdict? ==> exists j :: StoppedAt(trace, k, j, l)
    {
      TeardownConserves(env, |steps|, mid, k, l);
    }
  }

  lemma TeardownConserves<W>(env: Env<W>, n: nat, mid: Outcome<W>, k: nat, l: Launch)
    requires Tracks(mid.st) && ReturnedAt(Finally(env, n, mid).st.trace, k, l)
    ensures var out := Finally(env, n, mid);
            && Conserved(out.st.trace, n, k, l)
            && (out.finish.Verdict? ==> exists j :: StoppedAt(out.st.trace, k, j, l))
  {
    var t, trace := mid.st.trace, Finally(env, n, mid).st.trace;
    assert k < |t| && trace[k] == t[k];
    LaunchedThenTrackedOrStopped(t, k, l);
    if j :| StoppedAt(t, k, j, l) {
      StoppedLater(t, trace, k, j, l);
    } else {
      TeardownStops(t, n, k, l, env.stop(mid.st.world, l).1);
    }
  }

  // ── Processes ─────────────────────────────────────────────────

  /** Action `k` started a process and did not itself see it exit at once. */
  predicate StartedAt(trace: seq<Event>, k: nat) {
    && k < |trace|
    && trace[k].action.ALaunch?
    && (trace[k].action.launched.LaunchReturns? || trace[k].action.launched == LaunchEscapes(true))
  }

  /** The process was stopped: its launch returned a handle, which a later stop
      took down before anything else was launched. */
  ghost predicate Ended(trace: seq<Event>, k: nat) {
    && StartedAt(trace, k)
    && trace[k].action.launched.LaunchReturns?
    && exists j :: StoppedAt(trace, k, j, trace[k].action.launched.launch)
  }

  /** The last stop of the run, by its teardown, was of this process and failed. */
  ghost predicate LastStopFailed(trace: seq<Event>, n: nat, k: nat) {
    && StartedAt(trace, k)
    && trace[k].action.launched.LaunchReturns?
    && LostInTeardown(trace, n, k, trace[k].action.launched.launch)
  }

  lemma {:induction false} EmptyAfterStop(trace: seq<Event>, j: nat, m: nat)
    requires j < m <= |trace|
    requires trace[j].action.AStop? && trace[j].action.stopped.Stopped?
    requires forall i | j < i < m :: !trace[i].action.ALaunch?
    ensures Slot(trace[..m]).None?
  {
    assert trace[..m][..m - 1] == trace[..m - 1];
    if j < m - 1 {
      EmptyAfterStop(trace, j, m - 1);
    }
  }

  /** A handle that was stopped is not stopped again before the next launch. */
  lemma NotBoth(trace: seq<Event>, n: nat, k: nat, j: nat, l: Launch)
    requires Disciplined(trace) && LostInTeardown(trace, n, k, l)
    ensures !StoppedAt(trace, k, j, l)
  {
    var last := |trace| - 1;
    assert AllowedAt(trace, last);
    if StoppedAt(trace, k, j, l) && j < last {
      EmptyAfterStop(trace, j, last);
    }
  }

  /** A process that a run started outlives it exactly when an exception escaped
      from its launch after the start, so that no handle was kept, or when the
      stop in the teardown, the last one tried, failed. */
  lemma OutlivesExactly<W>(env: Env<W>, cfg: Config, steps: seq<Step>, w: W, profile: Option<Profile>, k: nat)
    requires StartedAt(ExecuteTest(env, cfg, steps, w, profile).st.trace, k)
    ensures var trace := ExecuteTest(env, cfg, steps, w, profile).st.trace;
            !Ended(trace, k) <==>
              trace[k].action.launched == LaunchEscapes(true) || LastStopFailed(trace, |steps|, k)
  {
    var trace := ExecuteTest(env, cfg, steps, w, profile).st.trace;
    HandlesConserved(env, cfg, steps, w, profile);
    if trace[k].action.launched.LaunchReturns? {
      var l := trace[k].action.launched.launch;
      assert ReturnedAt(trace, k, l);
      if LostInTeardown(trace, |steps|, k, l) {
        forall j | StoppedAt(trace, k, j, l)
          ensures false
        {
          NotBoth(trace, |steps|, k, j, l);
        }
      }
    }
  }

  // ── Reaching a step ───────────────────────────────────────────

  /** The state before step `j`, when steps below `j` all yield results. */
  ghost function Before<W>(env: Env<W>, cfg: Config, steps: seq<Step>, j: nat, st: RunState<W>): RunState<W>
    requires j <= |steps|
  {
    if j == 0 then st
    else
      var e := ExecStep(env, cfg, steps[j - 1], j - 1, Before(env, cfg, steps, j - 1, st));
      if e.Done? then e.st.Append(e.sr) else e.st
  }

  ghost function OverallOf(steps: seq<Step>, rs: seq<StepResult>): Status {
    if Blemished(steps, rs) then Fail else Pass
  }

  /** The run from step `j` on, entered in `Before(j)`, is the rest of `out`. */
  ghost predicate Passes<W>(env: Env<W>, cfg: Config, steps: seq<Step>, j: nat, at: RunState<W>, out: Outcome<W>) {
    && Midway(cfg, steps, j, at, OverallOf(steps, at.results))
    && out == Loop(env, cfg, steps, j, at, OverallOf(steps, at.results))
  }

  lemma PassOn<W>(env: Env<W>, cfg: Config, steps: seq<Step>, j: nat, at: RunState<W>, out: Outcome<W>)
    requires j < |steps| && Passes(env, cfg, steps, j, at, out)
    requires out.finish.Verdict? && !Halts(steps, out.st.results, j)
    ensures var e := ExecStep(env, cfg, steps[j], j, at);
            && e.Done?
            && Passes(env, cfg, steps, j + 1, e.st.Append(e.sr), out)
            && j < |out.st.results| && e.sr == out.st.results[j]
  {
    StepGrows(env, cfg, steps[j], j, at);
    var overall := OverallOf(steps, at.results);
    var e := ExecStep(env, cfg, steps[j], j, at);
    LoopShape(env, cfg, steps, j, at, overall);
    if !(e.sr.Bad() && steps[j].severity.Setup?) {
      MidwayNext(cfg, steps, j, at, overall, e);
      LoopShape(env, cfg, steps, j + 1, e.st.Append(e.sr), NextOverall(steps[j], e.sr, overall));
    }
  }

  /** A run that reaches a verdict without a failed setup step below `j` goes
      through `Before(j)`, and result `j` is what step `j` yields there. */
  lemma {:induction false} Reaches<W>(env: Env<W>, cfg: Config, steps: seq<Step>, j: nat, w: W,
                                      profile: Option<Profile>, out: Outcome<W>)
    requires j <= |steps|
    requires out == Loop(env, cfg, steps, 0, Initial(w, profile), Pass)
    requires out.finish.Verdict? && !HaltsBefore(steps, out.st.results, j)
    ensures Passes(env, cfg, steps, j, Before(env, cfg, steps, j, Initial(w, profile)), out)
  {
    if j > 0 {
      assert !Halts(steps, out.st.results, j - 1);
      Reaches(env, cfg, steps, j - 1, w, profile, out);
      PassOn(env, cfg, steps, j - 1, Before(env, cfg, steps, j - 1, Initial(w, profile)), out);
    }
  }

  /** What a passing verdict says about step `j` unless it is an info step. */
  ghost predicate Succeeded<W>(env: Env<W>, cfg: Config, steps: seq<Step>, j: nat, st0: RunState<W>, trace: seq<Event>)
    requires j < |steps|
  {
    var st := Before(env, cfg, steps, j, st0);
    var e := ExecStep(env, cfg, steps[j], j, st);
    && e.Done? && e.sr.status.Pass?
    && Before(env, cfg, steps, j + 1, st0) == e.st.Append(e.sr)
    && e.st.trace <= trace
  }

  lemma PassHasNoHalt(steps: seq<Step>, rs: seq<StepResult>, j: nat)
    requires |rs| == |steps| && !Blemished(steps, rs)
    ensures !HaltsBefore(steps, rs, j)
  {
  }

  /** A run with verdict `pass` goes through every step. */
  lemma PassGoesOn<W>(env: Env<W>, cfg: Config, steps: seq<Step>, j: nat, w: W, profile: Option<Profile>)
    requires j < |steps| && ExecuteTest(env, cfg, steps, w, profile).finish == Verdict(Pass)
    ensures var e := ExecStep(env, cfg, steps[j], j, Before(env, cfg, steps, j, Initial(w, profile)));
            e.Done? && Before(env, cfg, steps, j + 1, Initial(w, profile)) == e.st.Append(e.sr)
  {
    var st0 := Initial(w, profile);
    var out := Loop(env, cfg, steps, 0, st0, Pass);
    LoopShape(env, cfg, steps, 0, st0, Pass);
    PassHasNoHalt(steps, out.st.results, j);
    PassHasNoHalt(steps, out.st.results, j + 1);
    Reaches(env, cfg, steps, j, w, profile, out);
    assert !Halts(steps, out.st.results, j);
    PassOn(env, cfg, steps, j, Before(env, cfg, steps, j, st0), out);
  }

  /** A `pass` verdict means that every setup and required step was executed and
      passed, one after the other from the initial state. */
  lemma PassMeansAllPassed<W>(env: Env<W>, cfg: Config, steps: seq<Step>, j: nat, w: W, profile: Option<Profile>)
    requires j < |steps| && !steps[j].severity.Info?
    requires ExecuteTest(env, cfg, steps, w, profile).finish == Verdict(Pass)
    ensures Succeeded(env, cfg, steps, j, Initial(w, profile), ExecuteTest(env, cfg, steps, w, profile).st.trace)
  {
    var st0 := Initial(w, profile);
    var out := Loop(env, cfg, steps, 0, st0, Pass);
    LoopShape(env, cfg, steps, 0, st0, Pass);
    PassHasNoHalt(steps, out.st.results, j);
    PassHasNoHalt(steps, out.st.results, j + 1);
    Reaches(env, cfg, steps, j, w, profile, out);
    var st := Before(env, cfg, steps, j, st0);
    assert !Halts(steps, out.st.results, j);
    PassOn(env, cfg, steps, j, st, out);
    PassedFrom(env, cfg, steps, j, st, out);
  }

  lemma PassedFrom<W>(env: Env<W>, cfg: Config, steps: seq<Step>, j: nat, st: RunState<W>, out: Outcome<W>)
    requires j < |steps| && Passes(env, cfg, steps, j, st, out)
    requires out.finish == Verdict(Pass) && !Halts(steps, out.st.results, j) && !steps[j].severity.Info?
    ensures var e := ExecStep(env, cfg, steps[j], j, st);
            e.Done? && e.sr.status.Pass? && e.st.trace <= out.st.trace
  {
    PassOn(env, cfg, steps, j, st, out);
    StepGrows(env, cfg, steps[j], j, st);
    var e := ExecStep(env, cfg, steps[j], j, st);
    var st' := e.st.Append(e.sr);
    LoopShape(env, cfg, steps, j + 1, st', OverallOf(steps, st'.results));
    assert !Blemished(steps, out.st.results);
    assert out.st.results[j] == e.sr;
  }
}
