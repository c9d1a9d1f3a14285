/** The `snphost-config-commit` test: its plan, its handlers, and the host it
    runs on, a firmware with Reported, Committed and Current TCBs.

    Whatever can go wrong is decided by `Fates`, arbitrary functions of a tick
    that advances with every primitive, so that a theorem for all fates is a
    theorem for every pattern of failures. */
module ConfigCommit {
  import opened Prelude
  import opened Models
  import opened Machine
  import opened TcbText
  import opened TcbValues

  // ── The host ──────────────────────────────────────────────────

  datatype Firmware = Firmware(reported: Tcb, committed: Tcb, current: Tcb)

  /** The TCBs an attestation report carries. */
  datatype Report = Report(current: Tcb, committed: Tcb, reported: Tcb)

  /** `commits` counts the SNP_COMMITs that took effect. */
  datatype HostState = HostState(
    fw: Firmware,
    hostFiles: map<string, Report>,
    guestFiles: map<string, Report>,
    commits: nat,
    tick: nat)
  {
    function Next(): HostState {
      this.(tick := tick + 1)
    }
  }

  /** How a tool run by a handler ends. */
  datatype Tool = Works | Fails(code: int, stderr: string) | Throws(message: string)

  type NoHeader = s: string | OneLine(s) && MatchHeader(s).None? witness ""

  /** A command may or may not take effect, whatever it then reports; a reset
      that takes effect may leave any value in Reported; a commit may or may not clear an
      override of Reported; tools may fail and may lay out their text freely. */
  datatype Fates = Fates(
    shell: nat -> ShellOutcome,
    takes: nat -> bool,
    resets: nat -> Option<Tcb>,
    clears: nat -> bool,
    boot: nat -> Boot,
    stop: nat -> StopOutcome,
    journal: nat -> JournalOutcome,
    guest: nat -> VsockOutcome,
    pull: nat -> PullOutcome,
    tool: nat -> Tool,
    layout: nat -> Layout,
    preamble: nat -> seq<NoHeader>,
    showNone: nat -> bool,
    freshId: nat -> string)

  const RESET := "snphost config reset"
  const SHOW := "snphost show tcb"
  const LOWERED_REPORT := "report.bin"
  const RESET_REPORT := "report_after_reset.bin"

  function Shell(f: Fates, w: HostState, command: string): (r: (HostState, ShellOutcome))
    ensures r.0 == w.Next().(fw := w.fw.(reported := r.0.fw.reported))
  {
    var reported :=
      if command == RESET then
        (if f.resets(w.tick).Some? then f.resets(w.tick).value else w.fw.reported)
      else
        var override := ParseConfigSet(command);
        if override.Some? && f.takes(w.tick) then override.value.0 else w.fw.reported;
    (w.Next().(fw := w.fw.(reported := reported)), f.shell(w.tick))
  }

  /** A guest that starts has no report files yet. */
  function BootGuest(f: Fates, w: HostState, p: Profile): (HostState, Boot) {
    (w.Next().(guestFiles := map[]), f.boot(w.tick))
  }

  /** `snpguest report FILE …` writes a report of the firmware's TCBs. */
  function GuestCommand(f: Fates, w: HostState, l: Launch, command: string): (HostState, VsockOutcome) {
    var ws := SplitOn(command, ' ');
    var files :=
      if f.takes(w.tick) && |ws| >= 3 && ws[..2] == ["snpguest", "report"] then
        w.guestFiles[ws[2] := Report(w.fw.current, w.fw.committed, w.fw.reported)]
      else w.guestFiles;
    (w.Next().(guestFiles := files), f.guest(w.tick))
  }

  /** Pulling a file that the guest does not have fails. */
  function PullFile(f: Fates, w: HostState, l: Launch, src: string, dest: string): (HostState, PullOutcome) {
    match f.pull(w.tick)
    case Pulled =>
      if src in w.guestFiles then (w.Next().(hostFiles := w.hostFiles[dest := w.guestFiles[src]]), Pulled)
      else (w.Next(), PullFails("Guest base64 failed"))
    case out => (w.Next(), out)
  }

  // ── Tools run by handlers ─────────────────────────────────────

  datatype ToolRun = Ran(code: int, stdout: string, stderr: string) | Threw(message: string)

  function RunTool(f: Fates, w: HostState, text: string): (HostState, ToolRun) {
    (w.Next(),
     match f.tool(w.tick)
     case Works => Ran(0, text, "")
     case Fails(code, stderr) => Ran(if code == 0 then 1 else code, "", stderr)
     case Throws(message) => Threw(message))
  }

  function ShowSections(f: Fates, k: nat, fw: Firmware): seq<Section> {
    [Section("Reported", TcbFields(fw.reported, f.showNone(k))),
     Section("Platform", TcbFields(fw.current, f.showNone(k)))]
  }

  function ReportSections(f: Fates, k: nat, r: Report): seq<Section> {
    [Section("Current", TcbFields(r.current, f.showNone(k))),
     Section("Committed", TcbFields(r.committed, f.showNone(k))),
     Section("Reported", TcbFields(r.reported, f.showNone(k)))]
  }

  function Listed(f: Fates, k: nat, secs: seq<Section>): string {
    PrintLines(f.preamble(k)) + PrintSections(f.layout(k), secs)
  }

  /** `snphost show tcb`. */
  function ShowTcb(f: Fates, w: HostState): (HostState, ToolRun) {
    RunTool(f, w, Listed(f, w.tick, ShowSections(f, w.tick, w.fw)))
  }

  /** `snpguest display report`. */
  function DisplayReport(f: Fates, w: HostState, r: Report): (HostState, ToolRun) {
    RunTool(f, w, Listed(f, w.tick, ReportSections(f, w.tick, r)))
  }

  // ── Handlers ──────────────────────────────────────────────────

  /** Running tools takes time and changes nothing else. */
  predicate OnlyTicks(w: HostState, w': HostState) {
    w' == w.(tick := w'.tick)
  }

  function Get(sections: Sections, name: string): Fields {
    if name in sections then sections[name] else map[]
  }

  /** `_verify_result`. The mismatch branch of verify-match reads a variable
      that was never bound, so it raises instead of returning a result. */
  function VerifyResult(f: Fates, w: HostState, expectMatch: bool): (r: (HostState, HandlerOutcome))
    ensures OnlyTicks(w, r.0)
  {
    var (w, run) := ShowTcb(f, w);
    match run
    case Threw(message) => (w, HandlerErrs(message))
    case Ran(code, stdout, _) =>
      if code != 0 then (w, Exit(1))
      else
        var sections := ParseSections(stdout);
        var matches := TcbFieldsMatch(Get(sections, "Reported"), Get(sections, "Platform"));
        if expectMatch && !matches then (w, HandlerErrs("name 'cmd' is not defined"))
        else if !expectMatch && matches then (w, Exit(1))
        else (w, Exit(0))
  }

  /** The sections a tool printed, provided it succeeded and printed `names`;
      otherwise the reader raises. */
  function ReadSections(run: ToolRun, names: seq<string>): Option<Sections> {
    if run.Threw? || run.code != 0 then None
    else
      var sections := ParseSections(run.stdout);
      if forall n <- names :: n in sections then Some(sections) else None
  }

  const HOST_NAMES := ["Reported", "Platform"]
  const REPORT_NAMES := ["Current", "Committed", "Reported"]

  /** `_verify_guest_tcb`. When a reader raises, the `except` clause reads names
      that are not bound yet, so the handler raises too. */
  function VerifyGuestTcb(f: Fates, w: HostState, r: Report, expectMatch: bool): (ended: (HostState, HandlerOutcome))
    ensures OnlyTicks(w, ended.0)
  {
    var (w, run) := DisplayReport(f, w, r);
    var guest := ReadSections(run, REPORT_NAMES);
    if guest.None? then (w, HandlerErrs("cannot read guest report"))
    else
      var (w, run) := ShowTcb(f, w);
      var host := ReadSections(run, HOST_NAMES);
      if host.None? then (w, HandlerErrs("cannot read host TCB"))
      else
        var reportedMatchesHost := TcbFieldsMatch(Get(guest.value, "Reported"), Get(host.value, "Reported"));
        var currentMatchesPlatform := TcbFieldsMatch(Get(guest.value, "Current"), Get(host.value, "Platform"));
        var reportedMatchesPlatform := TcbFieldsMatch(Get(host.value, "Reported"), Get(host.value, "Platform"));
        (w, Exit(if reportedMatchesHost && currentMatchesPlatform && reportedMatchesPlatform == expectMatch then 0
            else 1))
  }

  function VerifyGuestReport(f: Fates, w: HostState, file: string, expectMatch: bool): (r: (HostState, HandlerOutcome))
    ensures OnlyTicks(w, r.0)
  {
    if file !in w.hostFiles then (w, Exit(1)) else VerifyGuestTcb(f, w, w.hostFiles[file], expectMatch)
  }

  /** `verify_lowered_report_signature`: fetch, then verify. */
  function VerifySignature(f: Fates, w: HostState): (r: (HostState, HandlerOutcome))
    ensures OnlyTicks(w, r.0)
  {
    if LOWERED_REPORT !in w.hostFiles then (w, Exit(1))
    else
      var (w, fetch) := RunTool(f, w, "");
      if fetch.Threw? then (w, HandlerErrs(fetch.message))
      else if fetch.code != 0 then (w, Exit(1))
      else
        var (w, verify) := RunTool(f, w, "");
        if verify.Threw? then (w, HandlerErrs(verify.message))
        else (w, Exit(if verify.code != 0 then 1 else 0))
  }

  /** `verify_committed_equals_current`, the gate before the commit. When the
      report cannot be read, the `except` clause reads an unbound name. */
  function Gate(f: Fates, w: HostState, allowHostChanges: bool): (r: (HostState, HandlerOutcome))
    ensures OnlyTicks(w, r.0)
  {
    if RESET_REPORT !in w.hostFiles then (w, Exit(1))
    else
      var (w, run) := DisplayReport(f, w, w.hostFiles[RESET_REPORT]);
      var sections := ReadSections(run, REPORT_NAMES);
      if sections.None? then (w, HandlerErrs("cannot read report"))
      else if TcbFieldsMatch(Get(sections.value, "Committed"), Get(sections.value, "Current")) then (w, Exit(0))
      else (w, Exit(if allowHostChanges then 0 else 1))
  }

  /** `commit_current_tcb`: SNP_COMMIT raises Committed to Current, and may
      also return Reported to Current. */
  function Commit(f: Fates, w: HostState): (HostState, HandlerOutcome) {
    var fw :=
      if !f.takes(w.tick) then w.fw
      else w.fw.(committed := w.fw.current,
                 reported := if f.clears(w.tick) then w.fw.current else w.fw.reported);
    var commits := if f.takes(w.tick) then w.commits + 1 else w.commits;
    var (w, run) := RunTool(f, w.(fw := fw, commits := commits), "");
    (w, if run.Threw? then HandlerErrs(run.message) else Exit(if run.code != 0 then 1 else 0))
  }

  function Call(f: Fates, w: HostState, handler: string, view: View): (r: (HostState, HandlerOutcome))
    ensures handler != "commit_current_tcb" ==> OnlyTicks(w, r.0)
  {
    match handler
    case "verify_differ" => VerifyResult(f, w, false)
    case "verify_match" => VerifyResult(f, w, true)
    case "verify_guest_report_lowered" => VerifyGuestReport(f, w, LOWERED_REPORT, false)
    case "verify_guest_report_restored" => VerifyGuestReport(f, w, RESET_REPORT, true)
    case "verify_lowered_report_signature" => VerifySignature(f, w)
    case "verify_committed_equals_current" => Gate(f, w, view.allowHostChanges)
    case "commit_current_tcb" => Commit(f, w)
    case _ => (w, HandlerErrs("Test module has no attribute"))
  }

  function HostEnv(f: Fates): Env<HostState> {
    Env(
      (w: HostState, c: string) => Shell(f, w, c),
      (w: HostState, p: Profile) => BootGuest(f, w, p),
      (w: HostState, l: Launch) => (w.Next(), f.stop(w.tick)),
      (w: HostState, l: Launch) => (w.Next(), f.journal(w.tick)),
      (w: HostState, l: Launch, c: string) => GuestCommand(f, w, l, c),
      (w: HostState, l: Launch, src: string, dest: string) => PullFile(f, w, l, src, dest),
      (w: HostState, h: string, view: View) =>
        var (w', out) := Call(f, w, h, view);
        (w', view.profile, out),
      (w: HostState) => f.freshId(w.tick))
  }

  // ── The plan ──────────────────────────────────────────────────

  const OK := ExitCode(0)

  function ReportLine(file: string, request: string): string {
    "snpguest report " + file + " " + request + " --random"
  }

  /** The 17 steps, for the lowered TCB they set. */
  function Plan(lo: Tcb): (steps: seq<Step>)
    ensures |steps| == 17
  {
    [ Step("show-tcb", Setup, Host(SHOW), OK),
      Step("config-set-lower", Required, Host(ConfigSet(lo, 0)), OK),
      Step("verify-differ after config-set-lower", Required, Callable("verify_differ"), OK),
      Step("Launch SEV-SNP guest", Required, VmLaunch("tcb-config-lowered-vm"), OK),
      Step("guest-report-after-lower", Required, Guest(ReportLine("report.bin", "request.bin")), OK),
      Step("pull-report-after-lower", Required, GuestPull("report.bin", LOWERED_REPORT), OK),
      Step("verify-guest-report-lowered", Required, Callable("verify_guest_report_lowered"), OK),
      Step("verify-lowered-report-signature", Required, Callable("verify_lowered_report_signature"), OK),
      Step("config-reset", Required, Host(RESET), OK),
      Step("verify-match after config-reset", Required, Callable("verify_match"), OK),
      Step("guest-report-after-reset", Required,
          Guest(ReportLine("report_after_reset.bin", "request_after_reset.bin")), OK),
      Step("pull-report-after-reset", Required, GuestPull("report_after_reset.bin", RESET_REPORT), OK),
      Step("verify-guest-report-restored", Required, Callable("verify_guest_report_restored"), OK),
      Step("Stop VM", Info, VmStop, OK),
      Step("teardown-config-reset", Info, Host(RESET), OK),
      Step("verify-committed-equals-current", Setup, Callable("verify_committed_equals_current"), OK),
      Step("commit-current-tcb", Required, Callable("commit_current_tcb"), OK) ]
  }

  const LOWER_STEP := 1
  const PULL_RESET_STEP := 11
  const STOP_STEP := 13
  const TEARDOWN_STEP := 14
  const GATE_STEP := 15
  const COMMIT_STEP := 16

  /** `steps()`: `None` where it raises. */
  function PlanFor(platform: Fields): Option<seq<Step>> {
    var t := ReadTcb(platform);
    if t.None? then None
    else
      var lo := Lower(t.value);
      if lo.None? then None else Some(Plan(lo.value))
  }

  /** Loading the test reads the platform TCB through the same tool. */
  function LoadPlan(f: Fates, w: HostState): (HostState, Option<seq<Step>>) {
    var (w, run) := ShowTcb(f, w);
    var sections := ReadSections(run, HOST_NAMES);
    (w, if sections.None? then None else PlanFor(Get(sections.value, "Platform")))
  }

  /** The whole test. A plan that cannot be loaded is an error without steps. */
  function RunTest(f: Fates, cfg: Config, w: HostState, profile: Profile): Outcome<HostState> {
    var (w, plan) := LoadPlan(f, w);
    if plan.None? then Outcome(Initial(w, Some(profile)), Verdict(Error))
    else ExecuteTest(HostEnv(f), cfg, plan.value, w, Some(profile))
  }
}
