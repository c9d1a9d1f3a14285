/** Data model of the harness: steps, profiles, results, and the outcomes its
    primitives (shell, QEMU launch, stop, vsock, handler call) can have. */
module Models {
  import opened Prelude

  // ── Steps ─────────────────────────────────────────────────────

  datatype Severity = Setup | Required | Info

  datatype Expected = ExitCode(code: int) | StdoutContains(text: string)

  /** A step's kind together with the fields that kind may set. */
  datatype Kind =
    | VmLaunch(guestId: string)
    | VmStop
    | Host(command: string)
    | Guest(command: string)
    | GuestPull(guestSrc: string, hostDest: string)
    | Callable(handler: string)

  datatype Step = Step(name: string, severity: Severity, kind: Kind, expected: Expected)

  // ── Profiles and launches ─────────────────────────────────────

  datatype Profile = Profile(
    imagePath: string,
    guestId: Option<string>,
    qemuBinary: string,
    ovmfPath: Option<string>,
    memoryMb: int,
    errorLog: string,
    bootLog: string,
    policy: Option<nat>,
    idBlock: Option<string>,
    idAuth: Option<string>,
    debug: bool)

  /** A handle on a started guest; `ok` is false when it did not boot. */
  datatype Launch = Launch(pid: nat, profile: Profile, ok: bool, message: string)

  // ── Results ───────────────────────────────────────────────────

  datatype Status = Pass | Skip | Fail | Error

  datatype StepResult = StepResult(
    step: Step,
    status: Status,
    exitCode: Option<int>,
    stdout: Option<string>,
    stderr: Option<string>)
  {
    /** The results that `execute_test` counts as a failure of the step. */
    predicate Bad() {
      status.Fail? || status.Error?
    }
  }

  function ErrorResult(step: Step, message: string): StepResult {
    StepResult(step, Error, None, None, Some(message))
  }

  function SkipResult(step: Step): StepResult {
    StepResult(step, Skip, None, None, None)
  }

  // ── Outcomes of primitives ────────────────────────────────────
  // `…Escapes` stands for an exception that no runner catches.

  datatype ShellOutcome =
    | ShellExits(code: int, stdout: string, stderr: string)
    | ShellTimesOut
    | ShellOsError(message: string)
    | ShellEscapes

  /** What happens when QEMU is started for a profile. An exception that no
      runner catches may come before or after the process was started. */
  datatype Boot =
    | Invalid(message: string)
    | ExitsAtOnce(code: int, stderrTail: string)
    | NotReady(pid: nat, bootError: string, exited: bool, stderrTail: string)
    | Ready(pid: nat)
    | BootEscapes(started: bool)

  datatype LaunchOutcome =
    | LaunchRaises(message: string)
    | LaunchReturns(launch: Launch)
    | LaunchEscapes(started: bool)

  datatype StopOutcome = Stopped | StopOsError(message: string) | StopEscapes

  datatype JournalOutcome = JournalDone | JournalEscapes

  datatype VsockOutcome =
    | VsockReply(code: int, stdout: string, stderr: string)
    | VsockFails(message: string)
    | VsockEscapes

  datatype PullOutcome = Pulled | PullFails(message: string) | PullEscapes

  /** A handler returns a result, or is turned into an error by the runner:
      it is missing, times out, raises, or returns something else. */
  datatype HandlerOutcome =
    | HandlerReturns(code: int, stdout: string, stderr: string)
    | HandlerErrs(message: string)

  function Exit(code: int): HandlerOutcome {
    HandlerReturns(code, "", "")
  }

  /** What a callable step's handler can read from its context. */
  datatype View = View(
    profile: Option<Profile>,
    launch: Option<Launch>,
    results: seq<StepResult>,
    allowHostChanges: bool)

  /** The world the harness acts on, as arbitrary functions of a state `W`.
      A handler may also leave a different profile in its context. */
  datatype Env<!W> = Env(
    shell: (W, string) -> (W, ShellOutcome),
    boot: (W, Profile) -> (W, Boot),
    stop: (W, Launch) -> (W, StopOutcome),
    journal: (W, Launch) -> (W, JournalOutcome),
    guest: (W, Launch, string) -> (W, VsockOutcome),
    pull: (W, Launch, string, string) -> (W, PullOutcome),
    call: (W, string, View) -> (W, Option<Profile>, HandlerOutcome),
    freshId: W -> string)

  datatype Config = Config(allowHostChanges: bool, debug: bool, artifactDir: string)

  // ── What a run does, in order ─────────────────────────────────

  datatype Action =
    | ALaunch(profile: Profile, launched: LaunchOutcome)
    | AStop(launch: Launch, stopped: StopOutcome)
    | AJournal(launch: Launch)
    | AShell(command: string, shelled: ShellOutcome)
    | AGuest(launch: Launch, command: string, replied: VsockOutcome)
    | APull(launch: Launch, src: string, dest: string, pulled: PullOutcome)
    | ACall(handler: string, view: View, returned: HandlerOutcome)

  /** An action and the index of the step that took it; the teardown after the
      last step carries the number of steps. */
  datatype Event = Event(at: nat, action: Action)
}
