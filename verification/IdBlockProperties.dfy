/** What a passing verdict of the ID block test proves about its launches. */
module IdBlockProperties {
  import opened Prelude
  import opened Models
  import opened Runner
  import opened Machine
  import opened RunProperties
  import opened IdBlock
  import R = AttestationReport

  // ── Launch steps ──────────────────────────────────────────────

  /** The launch was refused, either way, and said why. */
  predicate RefusedWith(out: LaunchOutcome, reason: string) {
    || (out.LaunchRaises? && Contains(out.message, reason))
    || (out.LaunchReturns? && !out.launch.ok && Contains(out.launch.message, reason))
  }

  lemma NotInBooted()
    ensures 'B' !in BOOTED_MESSAGE && 'S' !in BOOTED_MESSAGE && 'P' !in BOOTED_MESSAGE
  {
  }

  lemma ReasonInitial(n: Negative)
    ensures Reason(n) != "" && Reason(n)[0] in {'B', 'S', 'P'}
  {
  }

  lemma BootedSaysNoReason(n: Negative)
    ensures !Contains(BOOTED_MESSAGE, Reason(n))
  {
    NotInBooted();
    ReasonInitial(n);
    NotContainsByFirst(BOOTED_MESSAGE, Reason(n));
  }

  /** The profile a launch step hands to QEMU in state `st`. */
  ghost function Used<W>(env: Env<W>, cfg: Config, step: Step, st: RunState<W>): Profile
    requires step.kind.VmLaunch? && st.profile.Some?
  {
    LaunchProfile(env, cfg, step.kind.guestId, st.profile.value, st.world)
  }

  /** The last action of `st` is the launch of `p`, with this outcome. */
  predicate LaunchedLast<W>(st: RunState<W>, at: nat, p: Profile, out: LaunchOutcome) {
    st.trace != [] && st.trace[|st.trace| - 1] == Event(at, ALaunch(p, out))
  }

  /** A launch step passes only by an actual launch from an empty slot. */
  lemma LaunchStepPassed<W>(env: Env<W>, cfg: Config, step: Step, i: nat, st: RunState<W>)
    requires step.kind.VmLaunch?
    requires LaunchStep(env, cfg, step, i, st).Done? && LaunchStep(env, cfg, step, i, st).sr.status.Pass?
    ensures st.launch.None? && st.profile.Some?
    ensures var e := LaunchStep(env, cfg, step, i, st);
            var p := Used(env, cfg, step, st);
            var out := LaunchOf(p, env.boot(st.world, p).1);
            && !out.LaunchEscapes?
            && LaunchedLast(e.st, i, p, out)
            && (out.LaunchRaises? ==> CheckExpected(step.expected, 1, out.message))
            && (out.LaunchReturns? ==> CheckExpected(step.expected, if out.launch.ok then 0 else 1, out.launch.message))
            && e.st.launch == (if out.LaunchReturns? then Some(out.launch) else None)
  {
  }

  /** After a launch step, whichever way it ended, the stop step empties the
      slot for the next launch exactly when nothing was tracked (the launch
      raised) or the stop itself worked. */
  lemma StopAfterLaunch<W>(env: Env<W>, cfg: Config, launch: Step, stop: Step, i: nat, st: RunState<W>)
    requires launch.kind.VmLaunch? && stop.kind.VmStop? && st.launch.None? && st.profile.Some?
    requires LaunchStep(env, cfg, launch, i, st).Done?
    ensures var e := LaunchStep(env, cfg, launch, i, st);
            var s := StopStep(env, cfg, stop, i + 1, e.st.Append(e.sr));
            && (e.st.launch.None? <==> LaunchOf(Used(env, cfg, launch, st),
                env.boot(st.world, Used(env, cfg, launch, st)).1).LaunchRaises?)
            && (s.Done? ==>
                  (s.st.launch.None? <==>
                     || e.st.launch.None?
                     || (s.st.trace != [] && s.st.trace[|s.st.trace| - 1].action == AStop(e.st.launch.value, Stopped))))
  {
  }

  // ── What the handlers leave in the context ────────────────────

  /** The profile that was built from a run of the generator with `args`. */
  ghost predicate BuiltBy<W>(t: Tools<W>, w: W, args: GenArgs, before: Profile, p: Profile) {
    var (w', end) := t.generate(w, args);
    && end == Exits(0)
    && t.readFile(w', args.idFile).Text? && t.readFile(w', args.authFile).Text?
    && p == before.(idBlock := Some(Strip(t.readFile(w', args.idFile).text)),
                    idAuth := Some(Strip(t.readFile(w', args.authFile).text)),
                    policy := Some(args.policy))
  }

  lemma GeneratePassed<W>(t: Tools<W>, w: W, profile: Option<Profile>, args: GenArgs)
    requires Generate(t, w, profile, args).out == Exit(0)
    ensures var r := Generate(t, w, profile, args);
            profile.Some? && r.profile.Some? && BuiltBy(t, w, args, profile.value, r.profile.value)
  {
  }

  /** A negative handler passes only after it has put a block built for the
      altered measurement or policy into the profile. */
  lemma SetNegativePassed<W>(n: Negative, t: Tools<W>, w: W, profile: Option<Profile>)
    requires SetNegative(n, t, w, profile).out == Exit(0)
    ensures ReadMeta(t.vars).Some?
    ensures var file := ReadMeasurement(t.readFile(w, MEASUREMENT_FILE));
            var r := SetNegative(n, t, w, profile);
            && file.Digest? && profile.Some? && r.profile.Some?
            && BuiltBy(t, w, NegativeArgs(n, ReadMeta(t.vars).value, file.body), profile.value, r.profile.value)
  {
    var file := ReadMeasurement(t.readFile(w, MEASUREMENT_FILE));
    var r := Generate(t, w, profile, NegativeArgs(n, ReadMeta(t.vars).value, file.body));
    GeneratePassed(t, w, profile, NegativeArgs(n, ReadMeta(t.vars).value, file.body));
  }

  /** The check of the report passes only on a report that parses for this host
      and carries every ID block field that was asked for. */
  lemma VerifyFieldsPassed<W>(t: Tools<W>, w: W, profile: Option<Profile>)
    ensures VerifyFields(t, w, profile).out == Exit(0) <==>
              && ReadMeta(t.vars).Some?
              && t.hostGeneration(w).Some? && t.report(w).Some?
              && R.Parse(t.report(w).value, t.hostGeneration(w)).Ok?
              && FieldsMatch(R.Parse(t.report(w).value, t.hostGeneration(w)).report, ReadMeta(t.vars).value)
  {
  }

  lemma CallPassed<W>(base: Env<W>, t: Tools<W>, cfg: Config, step: Step, i: nat, st: RunState<W>)
    requires step.kind.Callable? && step.expected == IdBlock.OK
    requires var e := CallStep(WithHandlers(base, t), cfg, step, i, st); e.Done? && e.sr.status.Pass?
    ensures var r := Call(t, st.world, step.kind.handler, ViewOf(cfg, st));
            var e := CallStep(WithHandlers(base, t), cfg, step, i, st);
            && r.out.HandlerReturns? && r.out.code == 0
            && e.st.world == r.world && e.st.profile == r.profile && e.st.launch == st.launch
  {
  }

  /** The handlers return an exit code and nothing else. */
  predicate Bare(out: HandlerOutcome) {
    out.HandlerReturns? ==> out == Exit(out.code)
  }

  lemma NegativeIsBare<W>(t: Tools<W>, w: W, profile: Option<Profile>, n: Negative)
    ensures Bare(SetNegative(n, t, w, profile).out)
  {
  }

  lemma VerifyIsBare<W>(t: Tools<W>, w: W, profile: Option<Profile>)
    ensures Bare(VerifyFields(t, w, profile).out)
  {
  }

  lemma GenerateIsBare<W>(t: Tools<W>, w: W, profile: Option<Profile>)
    ensures Bare(GenerateIdBlock(t, w, profile).out)
  {
  }

  // ── The plan ──────────────────────────────────────────────────

  const REPORT_FILE := "report.bin"
  const REPORT_COMMAND := "snpguest report report.bin request.bin --random"
  const POSITIVE_GUEST := "positive-valid-id-block-vm"

  predicate Is(step: Step, kind: Kind) {
    step.kind == kind && step.expected == IdBlock.OK && !step.severity.Info?
  }

  predicate IsStop(step: Step) {
    step.kind.VmStop? && step.severity.Info?
  }

  /** A plan that starts with the seven steps of the positive case. */
  predicate HasPositive(steps: seq<Step>) {
    && 7 <= |steps|
    && Is(steps[0], Callable("calculate_measurement"))
    && Is(steps[1], Callable("generate_id_block"))
    && Is(steps[2], VmLaunch(POSITIVE_GUEST))
    && Is(steps[3], Guest(REPORT_COMMAND))
    && Is(steps[4], GuestPull(REPORT_FILE, REPORT_FILE))
    && IsStop(steps[5])
    && Is(steps[6], Callable("verify_id_block_fields"))
  }

  /** A plan with the three steps of case `n` at `j`. */
  predicate HasCase(steps: seq<Step>, j: nat, n: Negative) {
    && j + 2 < |steps|
    && Is(steps[j], Callable(Handler(n)))
    && steps[j + 1].kind == VmLaunch(GuestId(n)) && !steps[j + 1].severity.Info?
    && steps[j + 1].expected == StdoutContains(Reason(n))
    && IsStop(steps[j + 2])
  }

  /** The cases of a plan, with and without SMT. */
  predicate Tests(n: Negative, smt: bool) {
    n.SmtPolicy? ==> smt
  }

  /** All that the proofs use of the plan. */
  ghost predicate IsPlan(smt: bool, steps: seq<Step>) {
    && |steps| == (if smt then 16 else 14)
    && HasPositive(steps)
    && (forall n: Negative | Tests(n, smt) :: HasCase(steps, IndexOf(n, smt), n))
    && (!smt ==> steps[10].kind == Callable("smt_case_not_applicable") && steps[10].expected == IdBlock.OK)
  }

  predicate IsCase(part: seq<Step>, n: Negative) {
    |part| == 3 && HasCase(part, 0, n)
  }

  lemma CaseWithin(pre: seq<Step>, part: seq<Step>, post: seq<Step>, n: Negative)
    requires IsCase(part, n)
    ensures HasCase(pre + part + post, |pre|, n)
  {
    var steps, j := pre + part + post, |pre|;
    assert steps[j + 0] == part[0] && steps[j + 1] == part[1] && steps[j + 2] == part[2];
  }

  lemma PositiveWithin(a: seq<Step>, rest: seq<Step>)
    requires |a| == 7 && HasPositive(a)
    ensures HasPositive(a + rest)
  {
  }

  lemma PartsMakePlan(smt: bool, a: seq<Step>, b: seq<Step>, c: seq<Step>, d: seq<Step>)
    requires |a| == 7 && HasPositive(a) && IsCase(b, BadMeasurement) && IsCase(d, AbiVersion)
    requires if smt then IsCase(c, SmtPolicy)
             else |c| == 1 && c[0].kind == Callable("smt_case_not_applicable") && c[0].expected == IdBlock.OK
    ensures IsPlan(smt, a + b + c + d)
  {
    var steps := a + b + c + d;
    assert steps == a + (b + c + d) == a + b + (c + d) == (a + b + c) + d + [];
    PositiveWithin(a, b + c + d);
    CaseWithin(a, b, c + d, BadMeasurement);
    CaseWithin(a + b + c, d, [], AbiVersion);
    if smt {
      CaseWithin(a + b, c, d, SmtPolicy);
    } else {
      assert steps[10] == c[0];
    }
  }

  lemma PositiveStepsAre()
    ensures HasPositive(PositiveSteps())
  {
  }

  lemma NegativeStepsAre(n: Negative)
    ensures IsCase(NegativeSteps(n), n)
  {
  }

  lemma PlanIsPlan(smt: bool)
    ensures IsPlan(smt, Plan(smt))
  {
    PositiveStepsAre();
    NegativeStepsAre(BadMeasurement);
    NegativeStepsAre(SmtPolicy);
    NegativeStepsAre(AbiVersion);
    PartsMakePlan(smt, PositiveSteps(), NegativeSteps(BadMeasurement), SmtSteps(smt), NegativeSteps(AbiVersion));
  }

  /** The state before step `j` of a run. */
  ghost function StateAt<W>(base: Env<W>, t: Tools<W>, cfg: Config, steps: seq<Step>, j: nat,
                            w: W, profile: Option<Profile>): RunState<W>
    requires j <= |steps|
  {
    Before(WithHandlers(base, t), cfg, steps, j, Initial(w, profile))
  }

  /** Step `at` launched a VM with `p`, which was refused for the reason of `n`. */
  ghost predicate RefusedIn(trace: seq<Event>, at: nat, p: Profile, n: Negative) {
    exists k, out :: 0 <= k < |trace| && trace[k] == Event(at, ALaunch(p, out)) && RefusedWith(out, Reason(n))
  }

  /** The handler of `n`, started in `before`, left in `at` a profile built for
      its altered block. */
  ghost predicate AlteredFor<W>(t: Tools<W>, n: Negative, before: RunState<W>, at: RunState<W>) {
    var file := ReadMeasurement(t.readFile(before.world, MEASUREMENT_FILE));
    && ReadMeta(t.vars).Some? && file.Digest?
    && before.profile.Some? && at.profile.Some?
    && BuiltBy(t, before.world, NegativeArgs(n, ReadMeta(t.vars).value, file.body), before.profile.value,
        at.profile.value)
  }

  /** The negative case at step `j` held: the launch came from an empty slot,
      used exactly the profile its handler built for the altered block, and was
      refused. */
  ghost predicate Rejected<W>(base: Env<W>, cfg: Config, t: Tools<W>, j: nat, n: Negative,
                              before: RunState<W>, at: RunState<W>, trace: seq<Event>)
  {
    && AlteredFor(t, n, before, at)
    && at.launch.None?
    && RefusedIn(trace, j + 1, LaunchProfile(base, cfg, GuestId(n), at.profile.value, at.world), n)
  }

  lemma HandlerIs<W>(t: Tools<W>, w: W, n: Negative, view: View)
    ensures Call(t, w, Handler(n), view) == SetNegative(n, t, w, view.profile)
  {
  }

  lemma NegativeHandlerPassed<W>(base: Env<W>, t: Tools<W>, cfg: Config, step: Step, i: nat, st: RunState<W>,
                                 n: Negative)
    requires step.kind == Callable(Handler(n)) && step.expected == IdBlock.OK
    requires var e := CallStep(WithHandlers(base, t), cfg, step, i, st); e.Done? && e.sr.status.Pass?
    ensures AlteredFor(t, n, st, CallStep(WithHandlers(base, t), cfg, step, i, st).st)
  {
    CallPassed(base, t, cfg, step, i, st);
    HandlerIs(t, st.world, n, ViewOf(cfg, st));
    NegativeIsBare(t, st.world, st.profile, n);
    SetNegativePassed(n, t, st.world, st.profile);
  }

  lemma RefusalIn<W>(st: RunState<W>, i: nat, p: Profile, out: LaunchOutcome, n: Negative, trace: seq<Event>)
    requires LaunchedLast(st, i, p, out) && st.trace <= trace && RefusedWith(out, Reason(n))
    ensures RefusedIn(trace, i, p, n)
  {
  }

  lemma NegativeLaunchPassed<W>(env: Env<W>, cfg: Config, step: Step, i: nat, st: RunState<W>, n: Negative)
    requires step.kind.VmLaunch? && step.expected == StdoutContains(Reason(n))
    requires LaunchStep(env, cfg, step, i, st).Done? && LaunchStep(env, cfg, step, i, st).sr.status.Pass?
    ensures st.launch.None? && st.profile.Some?
    ensures var p := Used(env, cfg, step, st);
            var out := LaunchOf(p, env.boot(st.world, p).1);
            LaunchedLast(LaunchStep(env, cfg, step, i, st).st, i, p, out) && RefusedWith(out, Reason(n))
  {
    LaunchStepPassed(env, cfg, step, i, st);
    BootedSaysNoReason(n);
    BootedMessageIsFixed(Used(env, cfg, step, st), env.boot(st.world, Used(env, cfg, step, st)).1);
  }

  lemma CaseRefused<W>(env: Env<W>, cfg: Config, step: Step, i: nat, st: RunState<W>, n: Negative, trace: seq<Event>)
    requires step.kind == VmLaunch(GuestId(n)) && step.expected == StdoutContains(Reason(n))
    requires var e := LaunchStep(env, cfg, step, i, st); e.Done? && e.sr.status.Pass? && e.st.trace <= trace
    ensures st.launch.None? && st.profile.Some?
    ensures RefusedIn(trace, i, LaunchProfile(env, cfg, GuestId(n), st.profile.value, st.world), n)
  {
    NegativeLaunchPassed(env, cfg, step, i, st, n);
    var p := Used(env, cfg, step, st);
    RefusalIn(LaunchStep(env, cfg, step, i, st).st, i, p, LaunchOf(p, env.boot(st.world, p).1), n, trace);
  }

  lemma StepAlters<W>(base: Env<W>, t: Tools<W>, cfg: Config, step: Step, j: nat, n: Negative,
                      st: RunState<W>, next: RunState<W>)
    requires Is(step, Callable(Handler(n)))
    requires var e := ExecStep(WithHandlers(base, t), cfg, step, j, st);
             e.Done? && e.sr.status.Pass? && next == e.st.Append(e.sr)
    ensures AlteredFor(t, n, st, next)
  {
    NegativeHandlerPassed(base, t, cfg, step, j, st, n);
  }

  lemma CaseAltered<W>(base: Env<W>, t: Tools<W>, cfg: Config, steps: seq<Step>, j: nat, n: Negative,
                       w: W, profile: Option<Profile>)
    requires HasCase(steps, j, n)
    requires ExecuteTest(WithHandlers(base, t), cfg, steps, w, profile).finish == Verdict(Pass)
    ensures AlteredFor(t, n, StateAt(base, t, cfg, steps, j, w, profile),
              StateAt(base, t, cfg, steps, j + 1, w, profile))
  {
    PassMeansAllPassed(WithHandlers(base, t), cfg, steps, j, w, profile);
    StepAlters(base, t, cfg, steps[j], j, n,
               StateAt(base, t, cfg, steps, j, w, profile), StateAt(base, t, cfg, steps, j + 1, w, profile));
  }

  lemma CaseLaunched<W>(env: Env<W>, cfg: Config, steps: seq<Step>, j: nat, n: Negative, w: W, profile: Option<Profile>)
    requires HasCase(steps, j, n)
    requires ExecuteTest(env, cfg, steps, w, profile).finish == Verdict(Pass)
    ensures var at := Before(env, cfg, steps, j + 1, Initial(w, profile));
            && at.launch.None? && at.profile.Some?
            && RefusedIn(ExecuteTest(env, cfg, steps, w, profile).st.trace, j + 1,
                         LaunchProfile(env, cfg, GuestId(n), at.profile.value, at.world), n)
  {
    PassMeansAllPassed(env, cfg, steps, j + 1, w, profile);
    CaseRefused(env, cfg, steps[j + 1], j + 1, Before(env, cfg, steps, j + 1, Initial(w, profile)), n,
                ExecuteTest(env, cfg, steps, w, profile).st.trace);
  }

  /** Soundness of each negative case. */
  lemma PassMeansRejected<W>(base: Env<W>, t: Tools<W>, cfg: Config, steps: seq<Step>, j: nat, n: Negative,
                             w: W, profile: Option<Profile>)
    requires HasCase(steps, j, n)
    requires ExecuteTest(WithHandlers(base, t), cfg, steps, w, profile).finish == Verdict(Pass)
    ensures Rejected(base, cfg, t, j, n,
                     StateAt(base, t, cfg, steps, j, w, profile), StateAt(base, t, cfg, steps, j + 1, w, profile),
                     ExecuteTest(WithHandlers(base, t), cfg, steps, w, profile).st.trace)
  {
    CaseAltered(base, t, cfg, steps, j, n, w, profile);
    CaseLaunched(WithHandlers(base, t), cfg, steps, j, n, w, profile);
  }

  /** How pulled files reach the artifact directory: after a pull of the report
      that succeeded, the report there is what the guest held, `held`; stopping
      a guest and reading its journal leave it alone. */
  ghost predicate Arrives<W(!new)>(base: Env<W>, t: Tools<W>, held: (W, Launch) -> bytes) {
    && (forall w, l :: base.pull(w, l, REPORT_FILE, REPORT_FILE).1.Pulled? ==>
          t.report(base.pull(w, l, REPORT_FILE, REPORT_FILE).0) == Some(held(w, l)))
    && (forall w, l :: t.report(base.stop(w, l).0) == t.report(w))
    && (forall w, l :: t.report(base.journal(w, l).0) == t.report(w))
  }

  /** Guest `l` was asked for a report in `asked`, answered that it had written
      one, and handed it over in `pulled`. */
  ghost predicate HandedOver<W>(base: Env<W>, l: Launch, asked: RunState<W>, pulled: RunState<W>, next: RunState<W>) {
    var (w, reply) := base.guest(asked.world, l, REPORT_COMMAND);
    && reply.VsockReply? && reply.code == 0
    && pulled.world == w && pulled.launch == Some(l)
    && base.pull(w, l, REPORT_FILE, REPORT_FILE).1.Pulled?
    && next.world == base.pull(w, l, REPORT_FILE, REPORT_FILE).0 && next.launch == Some(l)
  }

  /** The guest was launched with an ID block built for the computed measurement
      and the requested policy, and it booted. */
  ghost predicate Launched<W>(base: Env<W>, t: Tools<W>, cfg: Config, gen: RunState<W>, at: RunState<W>,
                              up: RunState<W>) {
    var file := ReadMeasurement(t.readFile(gen.world, MEASUREMENT_FILE));
    && ReadMeta(t.vars).Some? && file.Digest?
    && var m := ReadMeta(t.vars).value;
    && gen.profile.Some? && at.profile.Some?
    && BuiltBy(t, gen.world, ArgsFor(m, file.body, m.policy, ID_BLOCK_FILE, ID_AUTH_FILE),
               gen.profile.value, at.profile.value)
    && up.launch.Some? && up.launch.value.ok
    && up.launch.value.profile == LaunchProfile(base, cfg, POSITIVE_GUEST, at.profile.value, at.world)
  }

  /** The report that was checked parses for this host and carries the requested
      fields. */
  ghost predicate Matches<W>(t: Tools<W>, check: RunState<W>) {
    var host := t.hostGeneration(check.world);
    && ReadMeta(t.vars).Some? && host.Some? && t.report(check.world).Some?
    && R.Parse(t.report(check.world).value, host).Ok?
    && FieldsMatch(R.Parse(t.report(check.world).value, host).report, ReadMeta(t.vars).value)
  }

  /** Soundness of the positive case: the guest was launched with a block for the
      computed measurement and booted, that same guest wrote a report and handed
      it over, and the report that was checked, which is that one wherever pulled
      files arrive, matches. */
  ghost predicate Accepted<W(!new)>(base: Env<W>, t: Tools<W>, cfg: Config, steps: seq<Step>, w: W,
                                    profile: Option<Profile>)
    requires HasPositive(steps)
  {
    var up := StateAt(base, t, cfg, steps, 3, w, profile);
    var pulled := StateAt(base, t, cfg, steps, 4, w, profile);
    var check := StateAt(base, t, cfg, steps, 6, w, profile);
    && Launched(base, t, cfg, StateAt(base, t, cfg, steps, 1, w, profile),
        StateAt(base, t, cfg, steps, 2, w, profile), up)
    && HandedOver(base, up.launch.value, up, pulled, StateAt(base, t, cfg, steps, 5, w, profile))
    && (forall held | Arrives(base, t, held) :: t.report(check.world) == Some(held(pulled.world, up.launch.value)))
    && Matches(t, check)
  }

  lemma MeasuredThenGenerated<W>(t: Tools<W>, w: W, profile: Option<Profile>)
    requires CalculateMeasurement(t, w, profile).out == Exit(0)
    requires var r := CalculateMeasurement(t, w, profile); GenerateIdBlock(t, r.world, r.profile).out == Exit(0)
    ensures ReadMeta(t.vars).Some?
    ensures var r := CalculateMeasurement(t, w, profile);
            var g := GenerateIdBlock(t, r.world, r.profile);
            var m := ReadMeta(t.vars).value;
            var file := ReadMeasurement(t.readFile(r.world, MEASUREMENT_FILE));
            && file.Digest? && r.profile.Some? && g.profile.Some?
            && BuiltBy(t, r.world, ArgsFor(m, file.body, m.policy, ID_BLOCK_FILE, ID_AUTH_FILE), r.profile.value,
                g.profile.value)
  {
  }

  lemma MeasurementExit<W>(t: Tools<W>, w: W, profile: Option<Profile>)
    ensures var out := CalculateMeasurement(t, w, profile).out; out.HandlerReturns? ==> out == Exit(out.code)
  {
  }

  lemma PositiveCallIs<W>(t: Tools<W>, w: W, view: View)
    ensures Call(t, w, "calculate_measurement", view) == CalculateMeasurement(t, w, view.profile)
    ensures Call(t, w, "generate_id_block", view) == GenerateIdBlock(t, w, view.profile)
    ensures Call(t, w, "verify_id_block_fields", view) == VerifyFields(t, w, view.profile)
  {
  }

  /** The handler of a callable step of the positive case. */
  ghost function PositiveRun<W>(t: Tools<W>, j: nat, w: W, profile: Option<Profile>): Run<W>
    requires j in {0, 1, 6}
  {
    if j == 0 then CalculateMeasurement(t, w, profile)
    else if j == 1 then GenerateIdBlock(t, w, profile)
    else VerifyFields(t, w, profile)
  }

  lemma PositiveCallPassed<W>(base: Env<W>, t: Tools<W>, cfg: Config, steps: seq<Step>, j: nat, st: RunState<W>)
    requires HasPositive(steps) && j in {0, 1, 6}
    requires var e := CallStep(WithHandlers(base, t), cfg, steps[j], j, st); e.Done? && e.sr.status.Pass?
    ensures var r := PositiveRun(t, j, st.world, st.profile);
            var e := CallStep(WithHandlers(base, t), cfg, steps[j], j, st);
            r.out == Exit(0) && e.st.world == r.world && e.st.profile == r.profile
  {
    CallPassed(base, t, cfg, steps[j], j, st);
    PositiveCallIs(t, st.world, ViewOf(cfg, st));
    VerifyIsBare(t, st.world, st.profile);
    GenerateIsBare(t, st.world, st.profile);
    MeasurementExit(t, st.world, st.profile);
  }

  ghost predicate PassedAtStep<W>(base: Env<W>, t: Tools<W>, cfg: Config, steps: seq<Step>, j: nat,
                                  st: RunState<W>, next: RunState<W>)
  {
    && j < |steps|
    && var e := ExecStep(WithHandlers(base, t), cfg, steps[j], j, st);
       e.Done? && e.sr.status.Pass? && next == e.st.Append(e.sr)
  }

  lemma PositivePassed<W>(base: Env<W>, t: Tools<W>, cfg: Config, steps: seq<Step>, j: nat, w: W,
                          profile: Option<Profile>)
    requires HasPositive(steps) && j in {0, 1, 2, 3, 4, 6}
    requires ExecuteTest(WithHandlers(base, t), cfg, steps, w, profile).finish == Verdict(Pass)
    ensures PassedAtStep(base, t, cfg, steps, j,
                         StateAt(base, t, cfg, steps, j, w, profile), StateAt(base, t, cfg, steps, j + 1, w, profile))
  {
    PassMeansAllPassed(WithHandlers(base, t), cfg, steps, j, w, profile);
  }

  lemma GuestUp<W>(base: Env<W>, t: Tools<W>, cfg: Config, steps: seq<Step>, st: RunState<W>, next: RunState<W>)
    requires HasPositive(steps) && PassedAtStep(base, t, cfg, steps, 2, st, next)
    ensures st.profile.Some? && next.launch.Some? && next.launch.value.ok
    ensures next.launch.value.profile == LaunchProfile(base, cfg, POSITIVE_GUEST, st.profile.value, st.world)
  {
    var env := WithHandlers(base, t);
    LaunchStepPassed(env, cfg, steps[2], 2, st);
    var p := Used(env, cfg, steps[2], st);
    BootedMessageIsFixed(p, env.boot(st.world, p).1);
  }

  lemma Measured<W>(base: Env<W>, t: Tools<W>, cfg: Config, steps: seq<Step>,
                    st0: RunState<W>, st1: RunState<W>, st2: RunState<W>)
    requires HasPositive(steps)
    requires PassedAtStep(base, t, cfg, steps, 0, st0, st1)
    requires PassedAtStep(base, t, cfg, steps, 1, st1, st2)
    ensures ReadMeta(t.vars).Some?
    ensures var m := ReadMeta(t.vars).value;
            var file := ReadMeasurement(t.readFile(st1.world, MEASUREMENT_FILE));
            && file.Digest? && st1.profile.Some? && st2.profile.Some?
            && BuiltBy(t, st1.world, ArgsFor(m, file.body, m.policy, ID_BLOCK_FILE, ID_AUTH_FILE),
                       st1.profile.value, st2.profile.value)
  {
    PositiveCallPassed(base, t, cfg, steps, 0, st0);
    PositiveCallPassed(base, t, cfg, steps, 1, st1);
    MeasuredThenGenerated(t, st0.world, st0.profile);
  }

  lemma Checked<W>(base: Env<W>, t: Tools<W>, cfg: Config, steps: seq<Step>, st: RunState<W>, next: RunState<W>)
    requires HasPositive(steps) && PassedAtStep(base, t, cfg, steps, 6, st, next)
    ensures Matches(t, st)
  {
    PositiveCallPassed(base, t, cfg, steps, 6, st);
    VerifyFieldsPassed(t, st.world, st.profile);
  }

  lemma ReportAsked<W>(base: Env<W>, t: Tools<W>, cfg: Config, steps: seq<Step>, l: Launch, st: RunState<W>,
                       next: RunState<W>)
    requires HasPositive(steps) && PassedAtStep(base, t, cfg, steps, 3, st, next)
    requires st.launch == Some(l)
    ensures var (w, reply) := base.guest(st.world, l, REPORT_COMMAND);
            reply.VsockReply? && reply.code == 0 && next.world == w && next.launch == Some(l)
  {
  }

  lemma ReportPulled<W>(base: Env<W>, t: Tools<W>, cfg: Config, steps: seq<Step>, l: Launch, st: RunState<W>,
                        next: RunState<W>)
    requires HasPositive(steps) && PassedAtStep(base, t, cfg, steps, 4, st, next)
    requires st.launch == Some(l)
    ensures var (w, out) := base.pull(st.world, l, REPORT_FILE, REPORT_FILE);
            out.Pulled? && next.world == w && next.launch == Some(l)
  {
  }

  /** A stop step stops the guest, or fails to; either way the report stays. */
  lemma ReportKept<W(!new)>(base: Env<W>, t: Tools<W>, held: (W, Launch) -> bytes, cfg: Config, step: Step, i: nat,
                            st: RunState<W>)
    requires Arrives(base, t, held) && step.kind.VmStop?
    ensures t.report(ExecStep(WithHandlers(base, t), cfg, step, i, st).st.world) == t.report(st.world)
  {
    if st.launch.Some? {
      var l := st.launch.value;
      var w1 := if cfg.debug then base.journal(st.world, l).0 else st.world;
      assert t.report(w1) == t.report(st.world);
      assert t.report(base.stop(w1, l).0) == t.report(w1);
    }
  }

  /** The report that is checked is what the guest held when it was pulled. */
  lemma CheckedIsHeld<W(!new)>(base: Env<W>, t: Tools<W>, held: (W, Launch) -> bytes, cfg: Config, steps: seq<Step>,
                               l: Launch, asked: RunState<W>, pulled: RunState<W>, sent: RunState<W>)
    requires HasPositive(steps) && Arrives(base, t, held) && HandedOver(base, l, asked, pulled, sent)
    ensures t.report(ExecStep(WithHandlers(base, t), cfg, steps[5], 5, sent).st.world) == Some(held(pulled.world, l))
  {
    ReportKept(base, t, held, cfg, steps[5], 5, sent);
  }

  /** Soundness of the positive case. */
  lemma PassMeansAccepted<W(!new)>(base: Env<W>, t: Tools<W>, cfg: Config, steps: seq<Step>, w: W,
                                   profile: Option<Profile>)
    requires HasPositive(steps)
    requires ExecuteTest(WithHandlers(base, t), cfg, steps, w, profile).finish == Verdict(Pass)
    ensures Accepted(base, t, cfg, steps, w, profile)
  {
    forall j | j in {0, 1, 2, 3, 4, 6}
      ensures PassedAtStep(base, t, cfg, steps, j,
                           StateAt(base, t, cfg, steps, j, w, profile), StateAt(base, t, cfg, steps, j + 1, w, profile))
    {
      PositivePassed(base, t, cfg, steps, j, w, profile);
    }
    var st0, gen := StateAt(base, t, cfg, steps, 0, w, profile), StateAt(base, t, cfg, steps, 1, w, profile);
    var at, up := StateAt(base, t, cfg, steps, 2, w, profile), StateAt(base, t, cfg, steps, 3, w, profile);
    var pulled, sent := StateAt(base, t, cfg, steps, 4, w, profile), StateAt(base, t, cfg, steps, 5, w, profile);
    Measured(base, t, cfg, steps, st0, gen, at);
    GuestUp(base, t, cfg, steps, at, up);
    var l := up.launch.value;
    ReportAsked(base, t, cfg, steps, l, up, pulled);
    ReportPulled(base, t, cfg, steps, l, pulled, sent);
    forall held | Arrives(base, t, held)
      ensures t.report(StateAt(base, t, cfg, steps, 6, w, profile).world) == Some(held(pulled.world, l))
    {
      CheckedIsHeld(base, t, held, cfg, steps, l, up, pulled, sent);
    }
    Checked(base, t, cfg, steps, StateAt(base, t, cfg, steps, 6, w, profile),
            StateAt(base, t, cfg, steps, 7, w, profile));
  }

  /** What a `pass` of a plan proves: the valid block was accepted, and every
      negative case was refused for its reason. */
  ghost predicate Sound<W(!new)>(base: Env<W>, t: Tools<W>, cfg: Config, smt: bool, steps: seq<Step>, w: W,
                                 profile: Option<Profile>)
    requires IsPlan(smt, steps)
  {
    && Accepted(base, t, cfg, steps, w, profile)
    && forall n: Negative | Tests(n, smt) ::
         var j := IndexOf(n, smt);
         HasCase(steps, j, n) &&
         Rejected(base, cfg, t, j, n,
                  StateAt(base, t, cfg, steps, j, w, profile), StateAt(base, t, cfg, steps, j + 1, w, profile),
                  ExecuteTest(WithHandlers(base, t), cfg, steps, w, profile).st.trace)
  }

  lemma PassIsSoundFor<W(!new)>(base: Env<W>, t: Tools<W>, cfg: Config, smt: bool, steps: seq<Step>, w: W,
                                profile: Option<Profile>)
    requires IsPlan(smt, steps)
    requires ExecuteTest(WithHandlers(base, t), cfg, steps, w, profile).finish == Verdict(Pass)
    ensures Sound(base, t, cfg, smt, steps, w, profile)
  {
    PassMeansAccepted(base, t, cfg, steps, w, profile);
    forall n: Negative | Tests(n, smt) {
      PassMeansRejected(base, t, cfg, steps, IndexOf(n, smt), n, w, profile);
    }
  }

  /** ID-block soundness: a `pass` verdict of the test means that the valid block
      was accepted and every negative case of the plan refused for its reason. Runs that pass:
      `IdBlockHost.RuleAbidingHostPasses`. */
  lemma PassIsSound<W(!new)>(base: Env<W>, t: Tools<W>, cfg: Config, smt: bool, w: W, profile: Option<Profile>)
    requires ExecuteTest(WithHandlers(base, t), cfg, Plan(smt), w, profile).finish == Verdict(Pass)
    ensures IsPlan(smt, Plan(smt)) && Sound(base, t, cfg, smt, Plan(smt), w, profile)
  {
    PlanIsPlan(smt);
    PassIsSoundFor(base, t, cfg, smt, Plan(smt), w, profile);
  }
}
