/** The step runners: how the outcome of a primitive becomes a step result. */
module Runner {
  import opened Prelude
  import opened Models

  /** `_check_expected_values`. */
  predicate CheckExpected(expected: Expected, code: int, stdout: string) {
    match expected
    case ExitCode(c) => code == c
    case StdoutContains(text) => Contains(stdout, text)
  }

  const BOOTED_MESSAGE := "VM launched and guest booted"
  const STOPPED_MESSAGE := "Guest VM stopped"

  /** `VMProfile.vm_launch`: the handle and message it reports, or its error. */
  function LaunchOf(profile: Profile, boot: Boot): LaunchOutcome {
    match boot
    case Invalid(message) => LaunchRaises(message)
    case ExitsAtOnce(code, tail) =>
      LaunchRaises("QEMU exited immediately with code " + IntStr(code)
                   + (if tail != "" then ": " + tail else ""))
    case NotReady(pid, bootError, exited, tail) =>
      var message := "Guest did not boot: " + bootError;
      LaunchReturns(Launch(pid, profile, false,
        if exited && tail != "" then message + "\nQEMU stderr:\n" + tail else message))
    case Ready(pid) => LaunchReturns(Launch(pid, profile, true, BOOTED_MESSAGE))
    case BootEscapes(started) => LaunchEscapes(started)
  }

  /** A launch that reports success always carries the same message, so no text
      expected of a refused launch can be found in it by accident. */
  lemma BootedMessageIsFixed(profile: Profile, boot: Boot)
    ensures LaunchOf(profile, boot).LaunchReturns? ==>
              var l := LaunchOf(profile, boot).launch;
              && l.profile == profile
              && (l.ok <==> boot.Ready?)
              && (l.ok ==> l.message == BOOTED_MESSAGE)
  {
  }

  /** The second half of `run_vm_launch_step`. */
  function LaunchResult(step: Step, out: LaunchOutcome): StepResult
    requires !out.LaunchEscapes?
  {
    match out
    case LaunchRaises(message) =>
      StepResult(step, if CheckExpected(step.expected, 1, message) then Pass else Error,
                 Some(1), None, Some(message))
    case LaunchReturns(l) =>
      var code := if l.ok then 0 else 1;
      StepResult(step, if CheckExpected(step.expected, code, l.message) then Pass else Fail,
                 Some(code),
                 if l.ok then Some(l.message) else None,
                 if l.ok then None else Some(l.message))
  }

  /** `run_vm_stop_step`. */
  function StopResult(step: Step, out: StopOutcome): StepResult
    requires !out.StopEscapes?
  {
    match out
    case StopOsError(message) => ErrorResult(step, message)
    case Stopped =>
      var passed := CheckExpected(step.expected, 0, STOPPED_MESSAGE);
      StepResult(step, if passed then Pass else Fail,
                 Some(if passed then 0 else 1), Some(STOPPED_MESSAGE), None)
  }

  /** `run_step`. */
  function ShellResult(step: Step, out: ShellOutcome): StepResult
    requires !out.ShellEscapes?
  {
    match out
    case ShellTimesOut => ErrorResult(step, "Timed out")
    case ShellOsError(message) => ErrorResult(step, message)
    case ShellExits(code, stdout, stderr) => Judged(step, code, stdout, stderr)
  }

  /** `run_guest_step`. */
  function GuestResult(step: Step, out: VsockOutcome): StepResult
    requires !out.VsockEscapes?
  {
    match out
    case VsockFails(message) => ErrorResult(step, message)
    case VsockReply(code, stdout, stderr) => Judged(step, code, stdout, stderr)
  }

  /** `run_guest_pull_step`: the check sees exit code 0 and empty output. */
  function PullResult(step: Step, src: string, dest: string, out: PullOutcome): StepResult
    requires !out.PullEscapes?
  {
    match out
    case PullFails(message) => ErrorResult(step, message)
    case Pulled =>
      StepResult(step, if CheckExpected(step.expected, 0, "") then Pass else Fail,
                 Some(0), Some("Pulled " + src + " -> " + dest), None)
  }

  /** `run_callable_step`. */
  function CallResult(step: Step, out: HandlerOutcome): StepResult {
    match out
    case HandlerErrs(message) => ErrorResult(step, message)
    case HandlerReturns(code, stdout, stderr) =>
      StepResult(step, if CheckExpected(step.expected, code, stdout) then Pass else Fail,
                 Some(code),
                 if stdout == "" then None else Some(stdout),
                 if stderr == "" then None else Some(stderr))
  }

  function Judged(step: Step, code: int, stdout: string, stderr: string): StepResult {
    StepResult(step, if CheckExpected(step.expected, code, stdout) then Pass else Fail,
               Some(code), Some(stdout), Some(stderr))
  }

  /** What the command line says about every guest. */
  datatype CommandLine = CommandLine(guestPath: string, qemu: Option<string>, ovmf: Option<string>, debug: bool)

  /** `effective_vm_profile`. */
  function EffectiveProfile(declared: Option<Profile>, cli: CommandLine, standard: Profile): Profile {
    var base := (if declared.Some? then declared.value else standard).(imagePath := cli.guestPath);
    var base := if cli.qemu.Some? then base.(qemuBinary := cli.qemu.value) else base;
    var base := if cli.ovmf.Some? then base.(ovmfPath := cli.ovmf) else base;
    if cli.debug then base.(debug := true) else base
  }
}
