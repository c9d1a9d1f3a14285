/** The run in which everything works: the test passes and leaves the firmware
    as the teardown should. Its checks go through the text that the tools print
    and the parser reads back. */
module ConfigCommitComplete {
  import opened Prelude
  import opened Models
  import opened Machine
  import opened RunProperties
  import opened TcbText
  import opened TcbValues
  import opened ConfigCommit
  import opened ConfigCommitSafety
  import opened ConfigCommitRuns

  // ── What the handlers decide ──────────────────────────────────

  /** Given a working tool, `verify_differ` passes iff Reported differs from
      Current, and `verify_match` passes iff they are equal and raises if not. */
  lemma VerifyResultDecides(f: Fates, w: HostState, expectMatch: bool)
    requires f.tool(w.tick).Works? && SameShape(w.fw.reported, w.fw.current)
    ensures var out := VerifyResult(f, w, expectMatch).1;
            && (out == Exit(0) <==> (w.fw.reported == w.fw.current) == expectMatch)
            && (out.HandlerErrs? <==> expectMatch && w.fw.reported != w.fw.current)
  {
    ShowRead(f, w.tick, w.fw);
    MatchDecidesEquality(w.fw.reported, f.showNone(w.tick), w.fw.current, f.showNone(w.tick));
  }

  lemma GuestSectionsRead(f: Fates, w: HostState, r: Report)
    requires f.tool(w.tick).Works?
    ensures var guest := ReadSections(DisplayReport(f, w, r).1, REPORT_NAMES);
            && guest.Some?
            && Get(guest.value, "Reported") == Listing(r.reported, f.showNone(w.tick))
            && Get(guest.value, "Current") == Listing(r.current, f.showNone(w.tick))
  {
    ReportRead(f, w.tick, r);
  }

  lemma HostSectionsRead(f: Fates, w: HostState)
    requires f.tool(w.tick).Works?
    ensures var host := ReadSections(ShowTcb(f, w).1, HOST_NAMES);
            && host.Some?
            && Get(host.value, "Reported") == Listing(w.fw.reported, f.showNone(w.tick))
            && Get(host.value, "Platform") == Listing(w.fw.current, f.showNone(w.tick))
  {
    ShowRead(f, w.tick, w.fw);
  }

  /** The three comparisons of the guest check, on the listings they read. */
  lemma ComparisonsDecide(guest: Sections, host: Sections, r: Report, fw: Firmware, a: bool, b: bool, expectMatch: bool)
    requires SameShape(r.reported, fw.reported) && SameShape(r.current, fw.current)
              && SameShape(fw.reported, fw.current)
    requires Get(guest, "Reported") == Listing(r.reported, a) && Get(guest, "Current") == Listing(r.current, a)
    requires Get(host, "Reported") == Listing(fw.reported, b) && Get(host, "Platform") == Listing(fw.current, b)
    ensures (&& TcbFieldsMatch(Get(guest, "Reported"), Get(host, "Reported"))
             && TcbFieldsMatch(Get(guest, "Current"), Get(host, "Platform"))
             && TcbFieldsMatch(Get(host, "Reported"), Get(host, "Platform")) == expectMatch)
            <==> (r.reported == fw.reported && r.current == fw.current && (fw.reported == fw.current) == expectMatch)
  {
    MatchDecidesEquality(r.reported, a, fw.reported, b);
    MatchDecidesEquality(r.current, a, fw.current, b);
    MatchDecidesEquality(fw.reported, b, fw.current, b);
  }

  /** Given working tools, the guest check passes iff the guest's report carries
      the host's Reported and Current and these compare as expected. */
  lemma VerifyGuestDecides(f: Fates, w: HostState, r: Report, expectMatch: bool)
    requires f.tool(w.tick).Works? && f.tool(w.tick + 1).Works?
    requires SameShape(r.reported, w.fw.reported) && SameShape(r.current, w.fw.current)
    requires SameShape(w.fw.reported, w.fw.current)
    ensures VerifyGuestTcb(f, w, r, expectMatch).1 == Exit(0) <==>
              && r.reported == w.fw.reported
              && r.current == w.fw.current
              && (w.fw.reported == w.fw.current) == expectMatch
  {
    GuestSectionsRead(f, w, r);
    HostSectionsRead(f, w.Next());
    var guest := ReadSections(DisplayReport(f, w, r).1, REPORT_NAMES).value;
    var host := ReadSections(ShowTcb(f, w.Next()).1, HOST_NAMES).value;
    ComparisonsDecide(guest, host, r, w.fw, f.showNone(w.tick), f.showNone(w.tick + 1), expectMatch);
  }

  /** The guest check raises exactly when one of its two readings fails. */
  lemma VerifyGuestRaises(f: Fates, w: HostState, r: Report, expectMatch: bool)
    ensures VerifyGuestTcb(f, w, r, expectMatch).1.HandlerErrs? <==>
              !f.tool(w.tick).Works? || !f.tool(w.tick + 1).Works?
  {
    if f.tool(w.tick).Works? {
      GuestSectionsRead(f, w, r);
      if f.tool(w.tick + 1).Works? {
        HostSectionsRead(f, w.Next());
      }
    }
  }

  // ── Commands ──────────────────────────────────────────────────

  lemma ThreeWords(a: string, b: string, c: string)
    requires ' ' !in a && ' ' !in b && ' ' !in c
    ensures |SplitOn(a + [' '] + (b + [' '] + c), ' ')| == 3
  {
    SplitOnHead(a, ' ', b + [' '] + c);
    SplitOnHead(b, ' ', c);
    SplitOnNone(c, ' ');
  }

  lemma ShowHasThreeWords()
    ensures |SplitOn(SHOW, ' ')| == 3
  {
    ThreeWords("snphost", "show", "tcb");
    assert "snphost" + [' '] + ("show" + [' '] + "tcb") == SHOW;
  }

  lemma TooFewWords(command: string)
    requires |SplitOn(command, ' ')| < 8
    ensures ParseConfigSet(command).None?
  {
  }

  lemma ShowIsNoReset()
    ensures SHOW != RESET
  {
    assert SHOW[8] == 's' && RESET[8] == 'c';
  }

  lemma ShowSetsNothing(f: Fates, w: HostState)
    ensures Shell(f, w, SHOW).0.fw == w.fw
  {
    ShowHasThreeWords();
    TooFewWords(SHOW);
    ShowIsNoReset();
  }

  lemma SetIsNoReset(lo: Tcb)
    ensures ConfigSet(lo, 0) != RESET
  {
    assert ConfigSet(lo, 0)[..|"snphost config set "|] == "snphost config set ";
    assert ConfigSet(lo, 0)[15] == "snphost config set "[15] == 's';
    assert RESET[15] == 'r';
  }

  lemma SetTakes(f: Fates, lo: Tcb, w: HostState)
    requires f.takes(w.tick)
    ensures Shell(f, w, ConfigSet(lo, 0)).0.fw.reported == lo
  {
    ConfigSetRoundTrip(lo, 0);
    SetIsNoReset(lo);
  }

  lemma FirstWords(a: string, b: string, c: string, rest: string)
    requires ' ' !in a && ' ' !in b && ' ' !in c
    ensures var ws := SplitOn(a + [' '] + (b + [' '] + (c + [' '] + rest)), ' ');
            |ws| >= 3 && ws[0] == a && ws[1] == b && ws[2] == c
  {
    SplitOnHead(a, ' ', b + [' '] + (c + [' '] + rest));
    SplitOnHead(b, ' ', c + [' '] + rest);
    SplitOnHead(c, ' ', rest);
  }

  lemma ReportCommand(file: string, request: string)
    requires ' ' !in file
    ensures var ws := SplitOn(ReportLine(file, request), ' ');
            |ws| >= 3 && ws[..2] == ["snpguest", "report"] && ws[2] == file
  {
    var rest := request + " --random";
    FirstWords("snpguest", "report", file, rest);
    assert "snpguest" + [' '] + ("report" + [' '] + (file + [' '] + rest)) == ReportLine(file, request);
  }

  // ── Steps that work ───────────────────────────────────────────

  /** A run of the plan, from tick `at`: on a host with firmware `c`, committed,
      where Reported is `start`, the plan sets `lo`, and Reported is then `low`,
      which differs from `c`. */
  datatype Course = Course(c: Tcb, lo: Tcb, start: Tcb, low: Tcb, at: nat)

  /** Every command, tool and VM operation succeeds and takes effect, except that
      the first two commands of the run may have no effect. */
  ghost predicate WorksFor(f: Fates, p: Course) {
    && AllSucceed(f) && WorkingResets(f, p.c)
    && (forall k | k > p.at + 1 :: f.takes(k))
    && p.low == (if f.takes(p.at + 1) then p.lo else p.start)
    && p.low != p.c && SameShape(p.low, p.c)
  }

  ghost predicate AllSucceed(f: Fates) {
    && (forall k :: f.shell(k).ShellExits? && f.shell(k).code == 0)
    && (forall k :: f.boot(k).Ready?)
    && (forall k :: f.stop(k).Stopped?)
    && (forall k :: f.journal(k).JournalDone?)
    && (forall k :: f.guest(k).VsockReply? && f.guest(k).code == 0)
    && (forall k :: f.pull(k).Pulled?)
    && (forall k :: f.tool(k).Works?)
  }

  /** The step passes and leaves this world and VM slot. */
  ghost predicate Works<W>(st: RunState<W>, e: Exec<W>, w: W, launch: Option<Launch>) {
    && e.Done? && e.sr.status.Pass?
    && e.st.world == w && e.st.launch == launch
    && e.st.profile.Some? == st.profile.Some?
    && e.st.results == st.results
  }

  lemma HostWorks(f: Fates, cfg: Config, step: Step, i: nat, st: RunState<HostState>)
    requires AllSucceed(f) && step.kind.Host? && step.expected == OK
    ensures Works(st, ExecStep(HostEnv(f), cfg, step, i, st), Shell(f, st.world, step.kind.command).0, st.launch)
  {
    assert HostEnv(f).shell(st.world, step.kind.command) == Shell(f, st.world, step.kind.command);
  }

  lemma GuestWorks(f: Fates, cfg: Config, step: Step, i: nat, st: RunState<HostState>)
    requires AllSucceed(f) && step.kind.Guest? && step.expected == OK
    requires st.profile.Some? && st.launch.Some? && st.launch.value.ok
    ensures Works(st, ExecStep(HostEnv(f), cfg, step, i, st),
                  GuestCommand(f, st.world, st.launch.value, step.kind.command).0, st.launch)
  {
    var l := st.launch.value;
    assert HostEnv(f).guest(st.world, l, step.kind.command) == GuestCommand(f, st.world, l, step.kind.command);
  }

  lemma PullWorks(f: Fates, cfg: Config, step: Step, i: nat, st: RunState<HostState>)
    requires AllSucceed(f) && step.kind.GuestPull? && step.expected == OK
    requires st.profile.Some? && st.launch.Some? && st.launch.value.ok && step.kind.guestSrc in st.world.guestFiles
    ensures var k := step.kind;
            Works(st, ExecStep(HostEnv(f), cfg, step, i, st),
                  st.world.Next().(hostFiles := st.world.hostFiles[k.hostDest := st.world.guestFiles[k.guestSrc]]),
                      st.launch)
  {
    var l, k := st.launch.value, step.kind;
    assert HostEnv(f).pull(st.world, l, k.guestSrc, k.hostDest) == PullFile(f, st.world, l, k.guestSrc, k.hostDest);
  }

  lemma LaunchWorks(f: Fates, cfg: Config, step: Step, i: nat, st: RunState<HostState>)
    requires AllSucceed(f) && step.kind.VmLaunch? && step.expected == OK
    requires st.profile.Some? && st.launch.None?
    ensures var e := ExecStep(HostEnv(f), cfg, step, i, st);
            && e.st.launch.Some? && e.st.launch.value.ok
            && Works(st, e, st.world.Next().(guestFiles := map[]), e.st.launch)
  {
    var p := LaunchProfile(HostEnv(f), cfg, step.kind.guestId, st.profile.value, st.world);
    assert HostEnv(f).boot(st.world, p) == BootGuest(f, st.world, p);
  }

  lemma StopWorks(f: Fates, cfg: Config, step: Step, i: nat, st: RunState<HostState>)
    requires AllSucceed(f) && step.kind.VmStop? && step.expected == OK && st.launch.Some?
    ensures var e := ExecStep(HostEnv(f), cfg, step, i, st);
            && OnlyTicks(st.world, e.st.world) && st.world.tick < e.st.world.tick
            && Works(st, e, e.st.world, None)
  {
    var l := st.launch.value;
    assert HostEnv(f).journal(st.world, l) == (st.world.Next(), f.journal(st.world.tick));
    var w1 := if cfg.debug then st.world.Next() else st.world;
    assert HostEnv(f).stop(w1, l) == (w1.Next(), f.stop(w1.tick));
  }

  lemma CallWorks(f: Fates, cfg: Config, step: Step, i: nat, st: RunState<HostState>)
    requires step.kind.Callable? && step.expected == OK
    requires Call(f, st.world, step.kind.handler, ViewOf(cfg, st)).1 == Exit(0)
    ensures Works(st, ExecStep(HostEnv(f), cfg, step, i, st),
              Call(f, st.world, step.kind.handler, ViewOf(cfg, st)).0, st.launch)
  {
    var view := ViewOf(cfg, st);
    var (w, out) := Call(f, st.world, step.kind.handler, view);
    assert HostEnv(f).call(st.world, step.kind.handler, view) == (w, view.profile, out);
  }

  // ── The course of the run ─────────────────────────────────────

  predicate Holds(files: map<string, Report>, file: string, r: Report) {
    file in files && files[file] == r
  }

  /** The state before step `j` of the run in which everything works. */
  ghost predicate OnCourse(p: Course, j: nat, st: RunState<HostState>) {
    && |st.results| == j <= 17
    && (forall k | 0 <= k < j :: st.results[k].status.Pass?)
    && st.profile.Some?
    && (if 4 <= j <= 13 then st.launch.Some? && st.launch.value.ok else st.launch.None?)
    && WorldOnCourse(p, j, st.world)
  }

  ghost predicate WorldOnCourse(p: Course, j: nat, w: HostState) {
    && w.fw.current == p.c && w.fw.committed == p.c
    && (if j <= 1 then w.tick == p.at + j else w.tick > p.at + 1)
    && w.fw.reported == (if j <= 1 then p.start else if j <= 8 then p.low else p.c)
    && (5 <= j ==> Holds(w.guestFiles, "report.bin", Report(p.c, p.c, p.low)))
    && (6 <= j ==> Holds(w.hostFiles, LOWERED_REPORT, Report(p.c, p.c, p.low)))
    && (11 <= j ==> Holds(w.guestFiles, "report_after_reset.bin", Report(p.c, p.c, p.c)))
    && (12 <= j ==> Holds(w.hostFiles, RESET_REPORT, Report(p.c, p.c, p.c)))
  }

  lemma HostCourse(f: Fates, p: Course, w: HostState, j: nat, command: string)
    requires WorksFor(f, p) && WorldOnCourse(p, j, w)
    requires (j == 0 && command == SHOW) || (j == 1 && command == ConfigSet(p.lo, 0)) || (j in {8, 14}
              && command == RESET)
    ensures WorldOnCourse(p, j + 1, Shell(f, w, command).0)
  {
    if j == 0 {
      ShowSetsNothing(f, w);
    } else if j == 1 {
      SetIsNoReset(p.lo);
      if f.takes(w.tick) {
        SetTakes(f, p.lo, w);
      }
    }
  }

  lemma GuestCourse(f: Fates, p: Course, w: HostState, l: Launch, j: nat, command: string)
    requires WorksFor(f, p) && WorldOnCourse(p, j, w)
    requires (j == 4 && command == ReportLine("report.bin", "request.bin"))
             || (j == 10 && command == ReportLine("report_after_reset.bin", "request_after_reset.bin"))
    ensures WorldOnCourse(p, j + 1, GuestCommand(f, w, l, command).0)
  {
    if j == 4 {
      ReportCommand("report.bin", "request.bin");
    } else {
      ReportCommand("report_after_reset.bin", "request_after_reset.bin");
      assert "report.bin"[6] != "report_after_reset.bin"[6];
    }
  }

  /** What the handler of a callable step of the plan does. */
  ghost function HandlerAt(f: Fates, w: HostState, j: nat, allow: bool): (HostState, HandlerOutcome)
    requires j in {2, 6, 7, 9, 12, 15, 16}
  {
    match j
    case 2 => VerifyResult(f, w, false)
    case 6 => VerifyGuestReport(f, w, LOWERED_REPORT, false)
    case 7 => VerifySignature(f, w)
    case 9 => VerifyResult(f, w, true)
    case 12 => VerifyGuestReport(f, w, RESET_REPORT, true)
    case 15 => Gate(f, w, allow)
    case _ => Commit(f, w)
  }

  /** Each check of the plan passes where it stands. */
  lemma HandlersPass(f: Fates, p: Course, w: HostState, j: nat, allow: bool)
    requires WorksFor(f, p)
    requires j in {2, 6, 7, 9, 12, 15, 16} && WorldOnCourse(p, j, w)
    ensures HandlerAt(f, w, j, allow).1 == Exit(0)
  {
    if j == 2 {
      VerifyResultDecides(f, w, false);
    } else if j == 6 {
      VerifyGuestDecides(f, w, Report(p.c, p.c, p.low), false);
    } else if j == 9 {
      VerifyResultDecides(f, w, true);
    } else if j == 12 {
      VerifyGuestDecides(f, w, Report(p.c, p.c, p.c), true);
    } else if j == 15 {
      GateDecides(f, w, allow);
    }
  }

  lemma HandlerTicks(f: Fates, w: HostState, j: nat, allow: bool)
    requires j in {2, 6, 7, 9, 12, 15, 16}
    ensures w.tick <= HandlerAt(f, w, j, allow).0.tick
  {
  }

  lemma HandlerCourse(f: Fates, p: Course, w: HostState, j: nat, allow: bool)
    requires WorksFor(f, p) && j in {2, 6, 7, 9, 12, 15, 16} && WorldOnCourse(p, j, w)
    ensures WorldOnCourse(p, j + 1, HandlerAt(f, w, j, allow).0)
  {
    HandlerTicks(f, w, j, allow);
    if j != 16 {
      assert OnlyTicks(w, HandlerAt(f, w, j, allow).0);
    }
  }

  ghost function HandlerName(j: nat): string {
    match j
    case 2 => "verify_differ"
    case 6 => "verify_guest_report_lowered"
    case 7 => "verify_lowered_report_signature"
    case 9 => "verify_match"
    case 12 => "verify_guest_report_restored"
    case 15 => "verify_committed_equals_current"
    case _ => "commit_current_tcb"
  }

  lemma CallAt(f: Fates, w: HostState, j: nat, view: View)
    requires j in {2, 6, 7, 9, 12, 15, 16}
    ensures Call(f, w, HandlerName(j), view) == HandlerAt(f, w, j, view.allowHostChanges)
  {
  }

  lemma CallCourse(f: Fates, p: Course, cfg: Config, j: nat, step: Step, st: RunState<HostState>)
    requires WorksFor(f, p)
    requires j in {2, 6, 7, 9, 12, 15, 16} && WorldOnCourse(p, j, st.world)
    requires step.kind == Callable(HandlerName(j)) && step.expected == OK
    ensures var e := ExecStep(HostEnv(f), cfg, step, j, st);
            Works(st, e, e.st.world, st.launch) && WorldOnCourse(p, j + 1, e.st.world)
  {
    var view := ViewOf(cfg, st);
    CallAt(f, st.world, j, view);
    HandlersPass(f, p, st.world, j, cfg.allowHostChanges);
    HandlerCourse(f, p, st.world, j, cfg.allowHostChanges);
    CallWorks(f, cfg, step, j, st);
  }

  lemma Advance(p: Course, j: nat, st: RunState<HostState>, e: Exec<HostState>)
    requires j < 17 && OnCourse(p, j, st)
    requires Works(st, e, e.st.world, e.st.launch) && WorldOnCourse(p, j + 1, e.st.world)
    requires if 4 <= j + 1 <= 13 then e.st.launch.Some? && e.st.launch.value.ok else e.st.launch.None?
    ensures OnCourse(p, j + 1, e.st.Append(e.sr))
  {
  }

  /** What step `j` of the plan is. */
  ghost predicate Scripted(lo: Tcb, j: nat, step: Step) {
    && step.expected == OK
    && match j
       case 0 => step.kind == Host(SHOW)
       case 1 => step.kind == Host(ConfigSet(lo, 0))
       case 3 => step.kind.VmLaunch?
       case 4 => step.kind == Guest(ReportLine("report.bin", "request.bin"))
       case 5 => step.kind == GuestPull("report.bin", LOWERED_REPORT)
       case 8 => step.kind == Host(RESET)
       case 10 => step.kind == Guest(ReportLine("report_after_reset.bin", "request_after_reset.bin"))
       case 11 => step.kind == GuestPull("report_after_reset.bin", RESET_REPORT)
       case 13 => step.kind.VmStop?
       case 14 => step.kind == Host(RESET)
       case _ => step.kind == Callable(HandlerName(j))
  }

  lemma CourseStep(f: Fates, p: Course, cfg: Config, step: Step, j: nat, st: RunState<HostState>)
    requires WorksFor(f, p) && j < 17 && Scripted(p.lo, j, step) && OnCourse(p, j, st)
    ensures var e := ExecStep(HostEnv(f), cfg, step, j, st);
            e.Done? && e.sr.status.Pass? && OnCourse(p, j + 1, e.st.Append(e.sr))
  {
    var e := ExecStep(HostEnv(f), cfg, step, j, st);
    match j
    case 3 => LaunchWorks(f, cfg, step, j, st);
    case 5 => PullWorks(f, cfg, step, j, st);
    case 11 => PullWorks(f, cfg, step, j, st);
    case 13 => StopWorks(f, cfg, step, j, st);
    case _ =>
      if j in {0, 1, 8, 14} {
        HostWorks(f, cfg, step, j, st);
        HostCourse(f, p, st.world, j, step.kind.command);
      } else if j in {4, 10} {
        GuestWorks(f, cfg, step, j, st);
        GuestCourse(f, p, st.world, st.launch.value, j, step.kind.command);
      } else {
        CallCourse(f, p, cfg, j, step, st);
      }
    Advance(p, j, st, e);
  }

  ghost predicate Script(lo: Tcb, steps: seq<Step>) {
    |steps| == 17 && forall j | 0 <= j < 17 :: Scripted(lo, j, steps[j])
  }

  lemma {:induction false} CourseRuns(f: Fates, p: Course, cfg: Config, steps: seq<Step>, j: nat,
                                      st: RunState<HostState>)
    requires WorksFor(f, p) && Script(p.lo, steps)
    requires j <= 17 && OnCourse(p, j, st)
    ensures var out := Loop(HostEnv(f), cfg, steps, j, st, Pass);
            out.finish == Verdict(Pass) && OnCourse(p, 17, out.st)
    decreases 17 - j
  {
    if j < 17 {
      var env := HostEnv(f);
      var e := ExecStep(env, cfg, steps[j], j, st);
      CourseStep(f, p, cfg, steps[j], j, st);
      LoopOnce(env, cfg, steps, j, st, Pass, e);
      CourseRuns(f, p, cfg, steps, j + 1, e.st.Append(e.sr));
    }
  }

  lemma PlanLoads(f: Fates, w0: HostState)
    requires f.tool(w0.tick).Works? && CoreSum(w0.fw.current) > 0
    ensures Lower(w0.fw.current).Some?
    ensures LoadPlan(f, w0) == (w0.Next(), Some(Plan(Lower(w0.fw.current).value)))
  {
    LowerIsOneStepDown(w0.fw.current);
    ShowRead(f, w0.tick, w0.fw);
    ReadInvertsListing(w0.fw.current, f.showNone(w0.tick));
  }

  lemma PlanIsScript(lo: Tcb)
    ensures Script(lo, Plan(lo))
  {
  }

  lemma CourseEnds(f: Fates, p: Course, cfg: Config, w: HostState, profile: Profile)
    requires WorksFor(f, p) && w.fw == Firmware(p.start, p.c, p.c) && w.tick == p.at
    ensures var out := ExecuteTest(HostEnv(f), cfg, Plan(p.lo), w, Some(profile));
            out.finish == Verdict(Pass) && OnCourse(p, 17, out.st)
  {
    PlanIsScript(p.lo);
    CourseRuns(f, p, cfg, Plan(p.lo), 0, Initial(w, Some(profile)));
  }

  /** Every command, tool and VM operation succeeds and takes effect. */
  ghost predicate AllWorks(f: Fates, c: Tcb) {
    AllSucceed(f) && WorkingResets(f, c) && forall k :: f.takes(k)
  }

  /** Completeness: from every state of a committed host (Committed equal to
      Current) with some non-zero core component, when every command and VM
      operation works, the plan loads and the test passes; Reported ends equal
      to Current and Committed is unchanged. */
  lemma WorkingHostPasses(f: Fates, cfg: Config, w0: HostState, profile: Profile)
    requires w0.fw.committed == w0.fw.current && CoreSum(w0.fw.current) > 0
    requires AllWorks(f, w0.fw.current)
    ensures var out := RunTest(f, cfg, w0, profile);
            && out.finish == Verdict(Pass)
            && out.st.world.fw == Firmware(w0.fw.current, w0.fw.current, w0.fw.current)
            && |out.st.results| == 17
            && forall j | 0 <= j < 17 :: out.st.results[j].status.Pass?
  {
    var c := w0.fw.current;
    LowerIsOneStepDown(c);
    var lo := Lower(c).value;
    LoadedRuns(f, cfg, w0, profile);
    CourseEnds(f, Course(c, lo, w0.fw.reported, lo, w0.tick + 1), cfg, w0.Next(), profile);
  }

  lemma LoadedRuns(f: Fates, cfg: Config, w0: HostState, profile: Profile)
    requires f.tool(w0.tick).Works? && CoreSum(w0.fw.current) > 0
    ensures Lower(w0.fw.current).Some?
    ensures var lo := Lower(w0.fw.current).value;
            RunTest(f, cfg, w0, profile) == ExecuteTest(HostEnv(f), cfg, Plan(lo), w0.Next(), Some(profile))
  {
    PlanLoads(f, w0);
  }
}
