/** When the ID block test passes: a host whose tools work, which boots the valid
    block, refuses each altered one for its reason and reports truthfully. */
module IdBlockComplete {
  import opened Prelude
  import opened Models
  import opened Runner
  import opened Machine
  import opened RunProperties
  import opened IdBlock
  import opened IdBlockProperties
  import R = AttestationReport

  /** What a host does with the test's metadata `m`: `digest` is the measurement
      it computes; `measured` holds in worlds where that has been done, `delivered`
      where the report was pulled as well; `blockOf` and `authOf` are the texts the
      generator writes. */
  datatype Scenario<!W> = Scenario(
    m: Meta,
    digest: string,
    measured: W -> bool,
    delivered: W -> bool,
    blockOf: GenArgs -> string,
    authOf: GenArgs -> string)
  {
    predicate Fits() {
      IsDigest(digest)
    }

    function Valid(): GenArgs {
      ArgsFor(m, digest, m.policy, ID_BLOCK_FILE, ID_AUTH_FILE)
    }

    function Altered(n: Negative): GenArgs
      requires Fits()
    {
      NegativeArgs(n, m, digest)
    }

    /** The profile carries the block generated for these arguments. */
    predicate Carried(p: Profile, args: GenArgs) {
      p.idBlock == Some(blockOf(args)) && p.idAuth == Some(authOf(args)) && p.policy == Some(args.policy)
    }
  }

  predicate Written(file: FileText, text: string) {
    file.Text? && Strip(file.text) == text
  }

  /** Measuring and generating work. */
  ghost predicate ToolsWork<W(!new)>(t: Tools<W>, smt: bool, s: Scenario<W>) {
    && ReadMeta(t.vars) == Some(s.m)
    && (forall w, p :: t.ovmfFound(w, p))
    && (forall w :: t.measure(w).1 == Exits(0) && s.measured(t.measure(w).0))
    && (forall w | s.measured(w) ::
          ReadMeasurement(t.readFile(w, MEASUREMENT_FILE)) == Digest(s.digest) && t.smtActive(w) == smt)
    && (forall w, args | s.measured(w) && UsesNamedFiles(args) :: GeneratorWorks(t, s, w, args))
  }

  /** The files the test has its blocks written to. */
  predicate UsesNamedFiles(args: GenArgs) {
    || (args.idFile == ID_BLOCK_FILE && args.authFile == ID_AUTH_FILE)
    || (args.idFile == NEG_BLOCK_FILE && args.authFile == NEG_AUTH_FILE)
  }

  ghost predicate GeneratorWorks<W>(t: Tools<W>, s: Scenario<W>, w: W, args: GenArgs) {
    var (w', end) := t.generate(w, args);
    && end == Exits(0) && s.measured(w')
    && Written(t.readFile(w', args.idFile), s.blockOf(args))
    && Written(t.readFile(w', args.authFile), s.authOf(args))
  }

  /** The valid block boots, and each altered one is refused for its reason. */
  ghost predicate BootsAsItShould<W(!new)>(base: Env<W>, smt: bool, s: Scenario<W>) {
    && s.Fits()
    && (forall w, p | s.measured(w) && s.Carried(p, s.Valid()) ::
          base.boot(w, p).1.Ready? && s.measured(base.boot(w, p).0))
    && (forall n: Negative, w, p | Tests(n, smt) && s.measured(w) && s.Carried(p, s.Altered(n)) ::
          RefusedWith(LaunchOf(p, base.boot(w, p).1), Reason(n)) && s.measured(base.boot(w, p).0))
  }

  /** The channel to the guest and stopping it work. */
  ghost predicate GuestWorks<W(!new)>(base: Env<W>, s: Scenario<W>) {
    && (forall w, l | s.measured(w) ::
          var (w', reply) := base.guest(w, l, REPORT_COMMAND);
          reply.VsockReply? && reply.code == 0 && s.measured(w'))
    && (forall w, l | s.measured(w) ::
          var (w', out) := base.pull(w, l, REPORT_FILE, REPORT_FILE);
          out.Pulled? && s.measured(w') && s.delivered(w'))
    && (forall w, l | s.measured(w) :: base.stop(w, l).1.Stopped? && Remains(s, w, base.stop(w, l).0))
    && (forall w, l | s.measured(w) :: base.journal(w, l).1.JournalDone? && Remains(s, w, base.journal(w, l).0))
  }

  predicate Remains<W>(s: Scenario<W>, w: W, w': W) {
    s.measured(w') && (s.delivered(w) ==> s.delivered(w'))
  }

  /** The report that was pulled parses for this host and carries the fields that
      were asked for. */
  ghost predicate ReportsTruly<W(!new)>(t: Tools<W>, s: Scenario<W>) {
    forall w | s.measured(w) && s.delivered(w) ::
      && t.hostGeneration(w).Some? && t.report(w).Some?
      && R.Parse(t.report(w).value, t.hostGeneration(w)).Ok?
      && IdFieldOk(s.m.familyId) && IdFieldOk(s.m.imageId)
      && FieldsMatch(R.Parse(t.report(w).value, t.hostGeneration(w)).report, s.m)
  }

  ghost predicate Cooperates<W(!new)>(base: Env<W>, t: Tools<W>, smt: bool, s: Scenario<W>) {
    ToolsWork(t, smt, s) && BootsAsItShould(base, smt, s) && GuestWorks(base, s) && ReportsTruly(t, s)
  }

  // ── One step ──────────────────────────────────────────────────

  ghost predicate Idle<W>(s: Scenario<W>, st: RunState<W>) {
    s.measured(st.world) && st.launch.None? && st.profile.Some?
  }

  ghost predicate GuestIsUp<W>(s: Scenario<W>, st: RunState<W>) {
    s.measured(st.world) && st.launch.Some? && st.launch.value.ok && st.profile.Some?
  }

  /** A step that does not fail the run hands it on to the next one. */
  lemma Turn<W>(env: Env<W>, cfg: Config, steps: seq<Step>, i: nat, st: RunState<W>, e: Exec<W>)
    requires i < |steps| && e == ExecStep(env, cfg, steps[i], i, st) && e.Done?
    requires e.sr.status.Pass? || steps[i].severity.Info?
    ensures Loop(env, cfg, steps, i, st, Pass) == Loop(env, cfg, steps, i + 1, e.st.Append(e.sr), Pass)
  {
    LoopOnce(env, cfg, steps, i, st, Pass, e);
  }

  lemma CallPasses<W>(base: Env<W>, t: Tools<W>, cfg: Config, step: Step, i: nat, st: RunState<W>)
    requires step.kind.Callable? && step.expected == IdBlock.OK
    requires Call(t, st.world, step.kind.handler, ViewOf(cfg, st)).out == Exit(0)
    ensures var r := Call(t, st.world, step.kind.handler, ViewOf(cfg, st));
            var e := ExecStep(WithHandlers(base, t), cfg, step, i, st);
            && e.Done? && e.sr.status.Pass?
            && e.st.world == r.world && e.st.profile == r.profile && e.st.launch == st.launch
  {
    var r := Call(t, st.world, step.kind.handler, ViewOf(cfg, st));
    assert WithHandlers(base, t).call(st.world, step.kind.handler, ViewOf(cfg, st)) == (r.world, r.profile, r.out);
  }

  lemma Generated<W(!new)>(t: Tools<W>, smt: bool, s: Scenario<W>, w: W, p: Profile, args: GenArgs)
    requires ToolsWork(t, smt, s) && s.measured(w) && UsesNamedFiles(args)
    ensures var r := Generate(t, w, Some(p), args);
            r.out == Exit(0) && s.measured(r.world) && r.profile.Some? && s.Carried(r.profile.value, args)
  {
    assert GeneratorWorks(t, s, w, args);
  }

  lemma CaseGenerated<W(!new)>(t: Tools<W>, smt: bool, s: Scenario<W>, n: Negative, w: W, p: Profile)
    requires ToolsWork(t, smt, s) && s.Fits() && s.measured(w) && Tests(n, smt)
    ensures var r := SetNegative(n, t, w, Some(p));
            r.out == Exit(0) && s.measured(r.world) && r.profile.Some? && s.Carried(r.profile.value, s.Altered(n))
  {
    Generated(t, smt, s, w, p, s.Altered(n));
    assert ReadMeasurement(t.readFile(w, MEASUREMENT_FILE)) == Digest(s.digest);
  }

  lemma MeasureStep<W(!new)>(base: Env<W>, t: Tools<W>, smt: bool, s: Scenario<W>, cfg: Config, step: Step, i: nat,
                             st: RunState<W>)
    requires ToolsWork(t, smt, s) && Is(step, Callable("calculate_measurement"))
    requires st.launch.None? && st.profile.Some?
    ensures var e := ExecStep(WithHandlers(base, t), cfg, step, i, st);
            e.Done? && e.sr.status.Pass? && Idle(s, e.st)
  {
    var w := t.measure(st.world).0;
    assert s.measured(w) && t.ovmfFound(st.world, st.profile.value);
    assert ReadMeasurement(t.readFile(w, MEASUREMENT_FILE)) == Digest(s.digest);
    PositiveCallIs(t, st.world, ViewOf(cfg, st));
    CallPasses(base, t, cfg, step, i, st);
  }

  lemma GenerateStep<W(!new)>(base: Env<W>, t: Tools<W>, smt: bool, s: Scenario<W>, cfg: Config, step: Step, i: nat,
                              st: RunState<W>)
    requires ToolsWork(t, smt, s) && Is(step, Callable("generate_id_block")) && Idle(s, st)
    ensures var e := ExecStep(WithHandlers(base, t), cfg, step, i, st);
            e.Done? && e.sr.status.Pass? && Idle(s, e.st) && s.Carried(e.st.profile.value, s.Valid())
  {
    assert ReadMeasurement(t.readFile(st.world, MEASUREMENT_FILE)) == Digest(s.digest);
    Generated(t, smt, s, st.world, st.profile.value, s.Valid());
    PositiveCallIs(t, st.world, ViewOf(cfg, st));
    CallPasses(base, t, cfg, step, i, st);
  }

  lemma BootStep<W(!new)>(base: Env<W>, t: Tools<W>, smt: bool, s: Scenario<W>, cfg: Config, step: Step, i: nat,
                          st: RunState<W>)
    requires BootsAsItShould(base, smt, s) && Is(step, VmLaunch(POSITIVE_GUEST))
    requires Idle(s, st) && s.Carried(st.profile.value, s.Valid())
    ensures var e := ExecStep(WithHandlers(base, t), cfg, step, i, st);
            e.Done? && e.sr.status.Pass? && GuestIsUp(s, e.st)
  {
    var p := LaunchProfile(WithHandlers(base, t), cfg, POSITIVE_GUEST, st.profile.value, st.world);
    assert s.Carried(p, s.Valid());
    assert base.boot(st.world, p).1.Ready?;
  }

  lemma AskStep<W(!new)>(base: Env<W>, t: Tools<W>, s: Scenario<W>, cfg: Config, step: Step, i: nat, st: RunState<W>)
    requires GuestWorks(base, s) && Is(step, Guest(REPORT_COMMAND)) && GuestIsUp(s, st)
    ensures var e := ExecStep(WithHandlers(base, t), cfg, step, i, st);
            e.Done? && e.sr.status.Pass? && GuestIsUp(s, e.st)
  {
    assert base.guest(st.world, st.launch.value, REPORT_COMMAND).1.VsockReply?;
  }

  lemma PullStep<W(!new)>(base: Env<W>, t: Tools<W>, s: Scenario<W>, cfg: Config, step: Step, i: nat, st: RunState<W>)
    requires GuestWorks(base, s) && Is(step, GuestPull(REPORT_FILE, REPORT_FILE)) && GuestIsUp(s, st)
    ensures var e := ExecStep(WithHandlers(base, t), cfg, step, i, st);
            e.Done? && e.sr.status.Pass? && GuestIsUp(s, e.st) && s.delivered(e.st.world)
  {
    assert base.pull(st.world, st.launch.value, REPORT_FILE, REPORT_FILE).1.Pulled?;
  }

  /** A stop step leaves the slot empty, whether or not it had anything to stop. */
  lemma StopsToIdle<W(!new)>(base: Env<W>, t: Tools<W>, s: Scenario<W>, cfg: Config, step: Step, i: nat,
                             st: RunState<W>)
    requires GuestWorks(base, s) && IsStop(step) && s.measured(st.world) && st.profile.Some?
    ensures var e := ExecStep(WithHandlers(base, t), cfg, step, i, st);
            e.Done? && Idle(s, e.st) && (s.delivered(st.world) ==> s.delivered(e.st.world))
  {
    if st.launch.Some? {
      var l := st.launch.value;
      var w1 := if cfg.debug then base.journal(st.world, l).0 else st.world;
      assert base.journal(st.world, l).1.JournalDone? && Remains(s, st.world, base.journal(st.world, l).0);
      assert base.stop(w1, l).1.Stopped? && Remains(s, w1, base.stop(w1, l).0);
    }
  }

  lemma CheckStep<W(!new)>(base: Env<W>, t: Tools<W>, smt: bool, s: Scenario<W>, cfg: Config, step: Step, i: nat,
                           st: RunState<W>)
    requires ToolsWork(t, smt, s) && ReportsTruly(t, s) && Is(step, Callable("verify_id_block_fields"))
    requires Idle(s, st) && s.delivered(st.world)
    ensures var e := ExecStep(WithHandlers(base, t), cfg, step, i, st);
            e.Done? && e.sr.status.Pass? && Idle(s, e.st)
  {
    VerifyFieldsPassed(t, st.world, st.profile);
    VerifyFieldsKeeps(t, st.world, st.profile);
    PositiveCallIs(t, st.world, ViewOf(cfg, st));
    CallPasses(base, t, cfg, step, i, st);
  }

  lemma VerifyFieldsKeeps<W>(t: Tools<W>, w: W, profile: Option<Profile>)
    ensures VerifyFields(t, w, profile).world == w && VerifyFields(t, w, profile).profile == profile
  {
  }

  lemma CaseStep<W(!new)>(base: Env<W>, t: Tools<W>, smt: bool, s: Scenario<W>, n: Negative, cfg: Config, step: Step,
                          i: nat, st: RunState<W>)
    requires ToolsWork(t, smt, s) && s.Fits() && Tests(n, smt) && Is(step, Callable(Handler(n))) && Idle(s, st)
    ensures var e := ExecStep(WithHandlers(base, t), cfg, step, i, st);
            e.Done? && e.sr.status.Pass? && Idle(s, e.st) && s.Carried(e.st.profile.value, s.Altered(n))
  {
    CaseGenerated(t, smt, s, n, st.world, st.profile.value);
    HandlerIs(t, st.world, n, ViewOf(cfg, st));
    CallPasses(base, t, cfg, step, i, st);
  }

  lemma RefuseStep<W(!new)>(base: Env<W>, t: Tools<W>, smt: bool, s: Scenario<W>, n: Negative, cfg: Config,
                            step: Step, i: nat, st: RunState<W>)
    requires BootsAsItShould(base, smt, s) && Tests(n, smt)
    requires step.kind == VmLaunch(GuestId(n)) && step.expected == StdoutContains(Reason(n))
    requires Idle(s, st) && s.Carried(st.profile.value, s.Altered(n))
    ensures var e := ExecStep(WithHandlers(base, t), cfg, step, i, st);
            e.Done? && e.sr.status.Pass? && s.measured(e.st.world) && e.st.profile.Some?
  {
    var p := LaunchProfile(WithHandlers(base, t), cfg, GuestId(n), st.profile.value, st.world);
    assert s.Carried(p, s.Altered(n));
    assert RefusedWith(LaunchOf(p, base.boot(st.world, p).1), Reason(n));
  }

  lemma SkipStep<W>(base: Env<W>, t: Tools<W>, cfg: Config, s: Scenario<W>, step: Step, i: nat, st: RunState<W>)
    requires step.kind == Callable("smt_case_not_applicable") && step.expected == IdBlock.OK && Idle(s, st)
    ensures var e := ExecStep(WithHandlers(base, t), cfg, step, i, st);
            e.Done? && e.sr.status.Pass? && Idle(s, e.st)
  {
    SkipCall(t, st.world, ViewOf(cfg, st));
    CallPasses(base, t, cfg, step, i, st);
  }

  lemma SkipCall<W>(t: Tools<W>, w: W, view: View)
    ensures Call(t, w, "smt_case_not_applicable", view) == Run(w, view.profile, Exit(0))
  {
  }

  // ── The run ───────────────────────────────────────────────────

  /** The negative case at step `j`: from an empty slot to an empty slot. */
  lemma CaseRuns<W(!new)>(base: Env<W>, t: Tools<W>, smt: bool, s: Scenario<W>, n: Negative, cfg: Config,
                          steps: seq<Step>, j: nat, st: RunState<W>) returns (next: RunState<W>)
    requires Cooperates(base, t, smt, s) && Tests(n, smt) && HasCase(steps, j, n) && Idle(s, st)
    ensures Idle(s, next)
    ensures Loop(WithHandlers(base, t), cfg, steps, j, st, Pass) ==
              Loop(WithHandlers(base, t), cfg, steps, j + 3, next, Pass)
  {
    var env := WithHandlers(base, t);
    CaseStep(base, t, smt, s, n, cfg, steps[j], j, st);
    var st1 := Onward(env, cfg, steps, j, st);
    RefuseStep(base, t, smt, s, n, cfg, steps[j + 1], j + 1, st1);
    var st2 := Onward(env, cfg, steps, j + 1, st1);
    StopsToIdle(base, t, s, cfg, steps[j + 2], j + 2, st2);
    next := Onward(env, cfg, steps, j + 2, st2);
  }

  /** The state after a step that does not fail the run. */
  lemma Onward<W>(env: Env<W>, cfg: Config, steps: seq<Step>, i: nat, st: RunState<W>) returns (next: RunState<W>)
    requires i < |steps| && ExecStep(env, cfg, steps[i], i, st).Done?
    requires ExecStep(env, cfg, steps[i], i, st).sr.status.Pass? || steps[i].severity.Info?
    ensures var e := ExecStep(env, cfg, steps[i], i, st); next == e.st.Append(e.sr)
    ensures Loop(env, cfg, steps, i, st, Pass) == Loop(env, cfg, steps, i + 1, next, Pass)
  {
    var e := ExecStep(env, cfg, steps[i], i, st);
    Turn(env, cfg, steps, i, st, e);
    next := e.st.Append(e.sr);
  }

  lemma BlockRuns<W(!new)>(base: Env<W>, t: Tools<W>, smt: bool, s: Scenario<W>, cfg: Config,
                           steps: seq<Step>, st: RunState<W>) returns (next: RunState<W>)
    requires ToolsWork(t, smt, s) && HasPositive(steps) && st.launch.None? && st.profile.Some?
    ensures Idle(s, next) && s.Carried(next.profile.value, s.Valid())
    ensures Loop(WithHandlers(base, t), cfg, steps, 0, st, Pass) ==
              Loop(WithHandlers(base, t), cfg, steps, 2, next, Pass)
  {
    var env := WithHandlers(base, t);
    MeasureStep(base, t, smt, s, cfg, steps[0], 0, st);
    var st1 := Onward(env, cfg, steps, 0, st);
    GenerateStep(base, t, smt, s, cfg, steps[1], 1, st1);
    next := Onward(env, cfg, steps, 1, st1);
  }

  lemma LaunchRuns<W(!new)>(base: Env<W>, t: Tools<W>, smt: bool, s: Scenario<W>, cfg: Config,
                            steps: seq<Step>, st: RunState<W>) returns (next: RunState<W>)
    requires BootsAsItShould(base, smt, s) && HasPositive(steps)
    requires Idle(s, st) && s.Carried(st.profile.value, s.Valid())
    ensures GuestIsUp(s, next)
    ensures Loop(WithHandlers(base, t), cfg, steps, 2, st, Pass) ==
              Loop(WithHandlers(base, t), cfg, steps, 3, next, Pass)
  {
    BootStep(base, t, smt, s, cfg, steps[2], 2, st);
    next := Onward(WithHandlers(base, t), cfg, steps, 2, st);
  }

  lemma GuestRuns<W(!new)>(base: Env<W>, t: Tools<W>, smt: bool, s: Scenario<W>, cfg: Config,
                           steps: seq<Step>, st3: RunState<W>) returns (next: RunState<W>)
    requires Cooperates(base, t, smt, s) && HasPositive(steps) && GuestIsUp(s, st3)
    ensures Idle(s, next)
    ensures Loop(WithHandlers(base, t), cfg, steps, 3, st3, Pass) ==
              Loop(WithHandlers(base, t), cfg, steps, 7, next, Pass)
  {
    var env := WithHandlers(base, t);
    AskStep(base, t, s, cfg, steps[3], 3, st3);
    var st4 := Onward(env, cfg, steps, 3, st3);
    PullStep(base, t, s, cfg, steps[4], 4, st4);
    var st5 := Onward(env, cfg, steps, 4, st4);
    StopsToIdle(base, t, s, cfg, steps[5], 5, st5);
    var st6 := Onward(env, cfg, steps, 5, st5);
    CheckStep(base, t, smt, s, cfg, steps[6], 6, st6);
    next := Onward(env, cfg, steps, 6, st6);
  }

  lemma PositiveRuns<W(!new)>(base: Env<W>, t: Tools<W>, smt: bool, s: Scenario<W>, cfg: Config,
                              steps: seq<Step>, st: RunState<W>) returns (next: RunState<W>)
    requires Cooperates(base, t, smt, s) && HasPositive(steps) && st.launch.None? && st.profile.Some?
    ensures Idle(s, next)
    ensures Loop(WithHandlers(base, t), cfg, steps, 0, st, Pass) ==
              Loop(WithHandlers(base, t), cfg, steps, 7, next, Pass)
  {
    var st2 := BlockRuns(base, t, smt, s, cfg, steps, st);
    var st3 := LaunchRuns(base, t, smt, s, cfg, steps, st2);
    next := GuestRuns(base, t, smt, s, cfg, steps, st3);
  }

  lemma CaseOf(smt: bool, steps: seq<Step>, n: Negative, j: nat)
    requires IsPlan(smt, steps) && Tests(n, smt) && j == IndexOf(n, smt)
    ensures HasCase(steps, j, n)
  {
  }

  lemma ThreeCases<W(!new)>(base: Env<W>, t: Tools<W>, smt: bool, s: Scenario<W>, a: Negative, b: Negative, c: Negative,
                            cfg: Config, steps: seq<Step>, j: nat, st: RunState<W>) returns (next: RunState<W>)
    requires Cooperates(base, t, smt, s) && Tests(a, smt) && Tests(b, smt) && Tests(c, smt)
    requires HasCase(steps, j, a) && HasCase(steps, j + 3, b) && HasCase(steps, j + 6, c) && Idle(s, st)
    ensures Idle(s, next)
    ensures Loop(WithHandlers(base, t), cfg, steps, j, st, Pass) ==
              Loop(WithHandlers(base, t), cfg, steps, j + 9, next, Pass)
  {
    var st1 := CaseRuns(base, t, smt, s, a, cfg, steps, j, st);
    var st2 := CaseRuns(base, t, smt, s, b, cfg, steps, j + 3, st1);
    next := CaseRuns(base, t, smt, s, c, cfg, steps, j + 6, st2);
  }

  /** The negative cases with SMT, from step 7 on. */
  lemma CasesWithSmt<W(!new)>(base: Env<W>, t: Tools<W>, s: Scenario<W>, a: Negative, b: Negative, c: Negative,
                              cfg: Config, steps: seq<Step>, st: RunState<W>) returns (next: RunState<W>)
    requires Cooperates(base, t, true, s) && IsPlan(true, steps) && Idle(s, st)
    requires IndexOf(a, true) == 7 && IndexOf(b, true) == 10 && IndexOf(c, true) == 13
    ensures Idle(s, next)
    ensures Loop(WithHandlers(base, t), cfg, steps, 7, st, Pass) ==
              Loop(WithHandlers(base, t), cfg, steps, 16, next, Pass)
  {
    CaseOf(true, steps, a, 7);
    CaseOf(true, steps, b, 10);
    CaseOf(true, steps, c, 13);
    next := ThreeCases(base, t, true, s, a, b, c, cfg, steps, 7, st);
  }

  lemma CaseSkipCase<W(!new)>(base: Env<W>, t: Tools<W>, smt: bool, s: Scenario<W>, a: Negative, c: Negative,
                              cfg: Config, steps: seq<Step>, j: nat, st: RunState<W>) returns (next: RunState<W>)
    requires Cooperates(base, t, smt, s) && Tests(a, smt) && Tests(c, smt)
    requires HasCase(steps, j, a) && HasCase(steps, j + 4, c) && Idle(s, st)
    requires steps[j + 3].kind == Callable("smt_case_not_applicable") && steps[j + 3].expected == IdBlock.OK
    ensures Idle(s, next)
    ensures Loop(WithHandlers(base, t), cfg, steps, j, st, Pass) ==
              Loop(WithHandlers(base, t), cfg, steps, j + 7, next, Pass)
  {
    var st1 := CaseRuns(base, t, smt, s, a, cfg, steps, j, st);
    SkipStep(base, t, cfg, s, steps[j + 3], j + 3, st1);
    var st2 := Onward(WithHandlers(base, t), cfg, steps, j + 3, st1);
    next := CaseRuns(base, t, smt, s, c, cfg, steps, j + 4, st2);
  }

  /** The negative cases without SMT. */
  lemma CasesWithoutSmt<W(!new)>(base: Env<W>, t: Tools<W>, s: Scenario<W>, a: Negative, c: Negative,
                                 cfg: Config, steps: seq<Step>, st: RunState<W>) returns (next: RunState<W>)
    requires Cooperates(base, t, false, s) && IsPlan(false, steps) && Idle(s, st)
    requires Tests(a, false) && Tests(c, false) && IndexOf(a, false) == 7 && IndexOf(c, false) == 11
    ensures Idle(s, next)
    ensures Loop(WithHandlers(base, t), cfg, steps, 7, st, Pass) ==
              Loop(WithHandlers(base, t), cfg, steps, 14, next, Pass)
  {
    CaseOf(false, steps, a, 7);
    CaseOf(false, steps, c, 11);
    next := CaseSkipCase(base, t, false, s, a, c, cfg, steps, 7, st);
  }

  lemma CasesRun<W(!new)>(base: Env<W>, t: Tools<W>, smt: bool, s: Scenario<W>, cfg: Config,
                          steps: seq<Step>, st: RunState<W>) returns (next: RunState<W>)
    requires Cooperates(base, t, smt, s) && IsPlan(smt, steps) && Idle(s, st)
    ensures Idle(s, next)
    ensures Loop(WithHandlers(base, t), cfg, steps, 7, st, Pass) ==
              Loop(WithHandlers(base, t), cfg, steps, |steps|, next, Pass)
  {
    if smt {
      next := CasesWithSmt(base, t, s, BadMeasurement, SmtPolicy, AbiVersion, cfg, steps, st);
    } else {
      next := CasesWithoutSmt(base, t, s, BadMeasurement, AbiVersion, cfg, steps, st);
    }
  }

  lemma PlanRuns<W(!new)>(base: Env<W>, t: Tools<W>, smt: bool, s: Scenario<W>, cfg: Config,
                          steps: seq<Step>, st: RunState<W>) returns (next: RunState<W>)
    requires Cooperates(base, t, smt, s) && IsPlan(smt, steps) && st.launch.None? && st.profile.Some?
    ensures Idle(s, next)
    ensures Loop(WithHandlers(base, t), cfg, steps, 0, st, Pass) ==
              Loop(WithHandlers(base, t), cfg, steps, |steps|, next, Pass)
  {
    var st7 := PositiveRuns(base, t, smt, s, cfg, steps, st);
    next := CasesRun(base, t, smt, s, cfg, steps, st7);
  }

  lemma IdleEnds<W>(env: Env<W>, cfg: Config, steps: seq<Step>, s: Scenario<W>, st: RunState<W>)
    requires Idle(s, st)
    ensures var out := Loop(env, cfg, steps, |steps|, st, Pass);
            out.finish == Verdict(Pass) && Finally(env, |steps|, out).finish == Verdict(Pass)
  {
  }

  lemma PlanPasses<W(!new)>(base: Env<W>, t: Tools<W>, smt: bool, s: Scenario<W>, cfg: Config,
                            steps: seq<Step>, w: W, profile: Profile)
    requires Cooperates(base, t, smt, s) && IsPlan(smt, steps)
    ensures ExecuteTest(WithHandlers(base, t), cfg, steps, w, Some(profile)).finish == Verdict(Pass)
  {
    var end := PlanRuns(base, t, smt, s, cfg, steps, Initial(w, Some(profile)));
    IdleEnds(WithHandlers(base, t), cfg, steps, s, end);
  }

  /** Completeness, with and without SMT: on a host whose measuring and generating
      tools work, which boots the valid block, refuses each altered one for its
      reason, stops its guests and hands over a truthful report, the test passes. */
  lemma CooperatingHostPasses<W(!new)>(base: Env<W>, t: Tools<W>, smt: bool, s: Scenario<W>, cfg: Config, w: W,
                                       profile: Profile)
    requires Cooperates(base, t, smt, s)
    ensures ExecuteTest(WithHandlers(base, t), cfg, Plan(smt), w, Some(profile)).finish == Verdict(Pass)
  {
    PlanIsPlan(smt);
    PlanPasses(base, t, smt, s, cfg, Plan(smt), w, profile);
  }
}
