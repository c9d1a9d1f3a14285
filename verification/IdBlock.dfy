/** The `id-block-test`: its handlers, which replace the profile that the next
    launch uses, and its plan. The world and the tools are arbitrary. */
module IdBlock {
  import opened Prelude
  import opened Models
  import opened Bits
  import R = AttestationReport

  // ── Tools ─────────────────────────────────────────────────────

  datatype FileText = Text(text: string) | Missing | Unreadable(message: string)

  datatype ToolEnd = Exits(code: int) | Throws(message: string)

  /** The ID_BLOCK_* variables; numbers as `int(raw, base)` reads them, `None`
      where it raises. */
  datatype Vars = Vars(family: string, image: string, svn: Option<int>, policy: Option<int>)

  /** The arguments of `snpguest generate id-block`. */
  datatype GenArgs = GenArgs(
    measurement: string, familyId: string, imageId: string, svn: nat, policy: nat,
    idFile: string, authFile: string)

  datatype Tools<!W> = Tools(
    vars: Vars,
    readFile: (W, string) -> FileText,
    ovmfFound: (W, Profile) -> bool,
    measure: W -> (W, ToolEnd),
    generate: (W, GenArgs) -> (W, ToolEnd),
    smtActive: W -> bool,
    report: W -> Option<bytes>,
    hostGeneration: W -> Option<R.Generation>)

  const MEASUREMENT_FILE := "guest_measurement.txt"
  const ID_BLOCK_FILE := "id-block.b64"
  const ID_AUTH_FILE := "id-auth.b64"
  const NEG_BLOCK_FILE := "neg-id-block.b64"
  const NEG_AUTH_FILE := "neg-id-auth.b64"

  // ── Metadata ──────────────────────────────────────────────────

  datatype Meta = Meta(familyId: string, imageId: string, guestSvn: nat, policy: nat)

  const ID_FIELD_SIZE := 16

  /** `_read_id_field` accepts ASCII text of at most 16 characters. */
  predicate IdFieldOk(s: string) {
    |s| <= ID_FIELD_SIZE && forall i | 0 <= i < |s| :: (s[i] as int) < 128
  }

  /** `read_id_block_metadata`; `None` where it raises. */
  function ReadMeta(v: Vars): Option<Meta> {
    match (v.svn, v.policy)
    case (Some(svn), Some(policy)) =>
      if IdFieldOk(v.family) && IdFieldOk(v.image) && svn >= 0 && policy >= 0
      then Some(Meta(v.family, v.image, svn, policy)) else None
    case _ => None
  }

  function EncodeAscii(s: string): (b: bytes)
    requires forall i | 0 <= i < |s| :: (s[i] as int) < 128
    ensures |b| == |s| && forall i | 0 <= i < |s| :: b[i] == s[i] as int
  {
    if s == [] then [] else [s[0] as int] + EncodeAscii(s[1..])
  }

  /** `s.encode("ascii").ljust(16, b"\\x00")`. */
  function IdBytes(s: string): (b: bytes)
    requires IdFieldOk(s)
    ensures |b| == ID_FIELD_SIZE
    ensures forall i | 0 <= i < ID_FIELD_SIZE :: b[i] == if i < |s| then s[i] as int else 0
  {
    EncodeAscii(s) + seq(ID_FIELD_SIZE - |s|, _ => 0)
  }

  // ── The measurement ───────────────────────────────────────────

  datatype MeasurementRead =
    | Digest(body: string)
    | MeasurementMissing
    | MeasurementMalformed
    | MeasurementRaises(message: string)

  /** 48 bytes in hexadecimal, without a prefix. */
  predicate IsDigest(s: string) {
    |s| == 96 && forall c <- s :: IsHexDigit(c)
  }

  /** `read_measurement`. */
  function ReadMeasurement(file: FileText): (r: MeasurementRead)
    ensures r.Digest? ==> IsDigest(r.body)
  {
    match file
    case Missing => MeasurementMissing
    case Unreadable(message) => MeasurementRaises(message)
    case Text(text) =>
      var raw := Strip(text);
      var body := if |raw| >= 2 && raw[0] == '0' && (raw[1] == 'x' || raw[1] == 'X') then raw[2..] else raw;
      if IsDigest(body) then Digest(body) else MeasurementMalformed
  }

  /** A file yields a digest exactly when its text, white space around it aside,
      is that digest, with or without 0x. */
  lemma MeasurementAccepted(text: string, digest: string)
    ensures ReadMeasurement(Text(text)) == Digest(digest) <==>
              IsDigest(digest) && Strip(text) in {digest, "0x" + digest, "0X" + digest}
  {
    var raw := Strip(text);
    if IsDigest(digest) {
      assert digest[1] in digest;
      assert ("0x" + digest)[2..] == digest && ("0X" + digest)[2..] == digest;
    }
    if |raw| >= 2 && raw[0] == '0' && raw[1] in {'x', 'X'} {
      assert raw == [raw[0], raw[1]] + raw[2..];
    }
  }

  /** The corrupted digest: another first byte, the rest unchanged. */
  function Flip(digest: string): string
    requires |digest| >= 2
  {
    (if digest[..2] != "00" then "00" else "ff") + digest[2..]
  }

  function ByteAt(digest: string, i: nat): nat
    requires IsDigest(digest) && i < 48
  {
    assert digest[2 * i] in digest && digest[2 * i + 1] in digest;
    16 * HexValue(digest[2 * i]) + HexValue(digest[2 * i + 1])
  }

  lemma FlipChangesFirstByte(digest: string)
    requires IsDigest(digest)
    ensures IsDigest(Flip(digest))
    ensures forall i | 0 <= i < 48 :: ByteAt(Flip(digest), i) == ByteAt(digest, i) <==> i != 0
  {
  }

  // ── Policies ──────────────────────────────────────────────────

  /** `policy & ~(1 << 16)`. */
  function WithoutSmt(policy: nat): nat {
    AndNot(policy, Shl(1, 16))
  }

  /** `(policy & ~0xFF00) | (0xFF << 8)`. */
  function ImpossibleAbi(policy: nat): nat {
    Or(AndNot(policy, 0xFF00), Shl(0xFF, 8))
  }

  /** Exactly the SMT bit is cleared. */
  lemma WithoutSmtBits(policy: nat, k: nat)
    ensures Bit(WithoutSmt(policy), k) <==> Bit(policy, k) && k != 16
  {
    AndNotBits(policy, Shl(1, 16), k);
    ShlBits(1, 16, k);
    if k >= 16 {
      OneBits(k - 16);
    }
  }

  lemma AbiMaskIs()
    ensures Shl(0xFF, 8) == 0xFF00 && Ones(8) == 0xFF
  {
  }

  /** ABI_MAJOR, bits 15 to 8, becomes 255; no other bit changes. */
  lemma ImpossibleAbiBits(policy: nat, k: nat)
    ensures Bit(ImpossibleAbi(policy), k) <==> (8 <= k < 16 || Bit(policy, k))
  {
    AbiMaskIs();
    OrBits(AndNot(policy, 0xFF00), Shl(0xFF, 8), k);
    AndNotBits(policy, 0xFF00, k);
    ShlBits(0xFF, 8, k);
    if k >= 8 {
      OnesBits(8, k - 8);
    }
  }

  // ── Handlers ──────────────────────────────────────────────────

  /** What a handler leaves: the world, the profile in the context, its end. */
  datatype Run<W> = Run(world: W, profile: Option<Profile>, out: HandlerOutcome)

  /** `calculate_measurement`. */
  function CalculateMeasurement<W>(t: Tools<W>, w: W, profile: Option<Profile>): Run<W> {
    if profile.None? then Run(w, profile, HandlerErrs("no profile"))
    else if !t.ovmfFound(w, profile.value) then Run(w, profile, Exit(1))
    else
      var (w, end) := t.measure(w);
      match end
      case Throws(message) => Run(w, profile, HandlerErrs(message))
      case Exits(code) =>
        if code != 0 then Run(w, profile, Exit(code))
        else if t.readFile(w, MEASUREMENT_FILE).Text? then Run(w, profile, Exit(0))
        else Run(w, profile, HandlerErrs("cannot read measurement"))
  }

  /** The part shared by all generators: run the tool, read both files back, and
      replace the profile in the context. */
  function Generate<W>(t: Tools<W>, w: W, profile: Option<Profile>, args: GenArgs): Run<W> {
    var (w, end) := t.generate(w, args);
    match end
    case Throws(message) => Run(w, profile, HandlerErrs(message))
    case Exits(code) =>
      if code != 0 then Run(w, profile, Exit(code))
      else
        match (profile, t.readFile(w, args.idFile), t.readFile(w, args.authFile))
        case (Some(p), Text(block), Text(auth)) =>
          Run(w, Some(p.(idBlock := Some(Strip(block)), idAuth := Some(Strip(auth)), policy := Some(args.policy))),
              Exit(0))
        case _ => Run(w, profile, HandlerErrs("cannot update profile"))
  }

  function ArgsFor(m: Meta, measurement: string, policy: nat, idFile: string, authFile: string): GenArgs {
    GenArgs("0x" + measurement, m.familyId, m.imageId, m.guestSvn, policy, idFile, authFile)
  }

  /** `generate_id_block`: without a measurement file it passes and leaves the
      profile alone. */
  function GenerateIdBlock<W>(t: Tools<W>, w: W, profile: Option<Profile>): Run<W> {
    match ReadMeta(t.vars)
    case None => Run(w, profile, Exit(1))
    case Some(m) =>
      match ReadMeasurement(t.readFile(w, MEASUREMENT_FILE))
      case MeasurementMissing => Run(w, profile, Exit(0))
      case MeasurementMalformed => Run(w, profile, Exit(1))
      case MeasurementRaises(message) => Run(w, profile, HandlerErrs(message))
      case Digest(body) => Generate(t, w, profile, ArgsFor(m, body, m.policy, ID_BLOCK_FILE, ID_AUTH_FILE))
  }

  datatype Negative = BadMeasurement | SmtPolicy | AbiVersion

  function NegativeDigest(n: Negative, digest: string): string
    requires |digest| >= 2
  {
    if n.BadMeasurement? then Flip(digest) else digest
  }

  function NegativePolicy(n: Negative, policy: nat): nat {
    match n
    case BadMeasurement => policy
    case SmtPolicy => WithoutSmt(policy)
    case AbiVersion => ImpossibleAbi(policy)
  }

  function NegativeArgs(n: Negative, m: Meta, digest: string): GenArgs
    requires |digest| >= 2
  {
    ArgsFor(m, NegativeDigest(n, digest), NegativePolicy(n, m.policy), NEG_BLOCK_FILE, NEG_AUTH_FILE)
  }

  /** `set_bad_measurement`, `set_incompatible_policy`, `set_bad_abi_version`:
      a failing tool is reported as exit code 1. */
  function SetNegative<W>(n: Negative, t: Tools<W>, w: W, profile: Option<Profile>): Run<W> {
    if n.SmtPolicy? && !t.smtActive(w) then Run(w, profile, Exit(1))
    else
      match ReadMeasurement(t.readFile(w, MEASUREMENT_FILE))
      case MeasurementRaises(message) => Run(w, profile, HandlerErrs(message))
      case MeasurementMissing => Run(w, profile, Exit(1))
      case MeasurementMalformed => Run(w, profile, Exit(1))
      case Digest(digest) =>
        match ReadMeta(t.vars)
        case None => Run(w, profile, Exit(1))
        case Some(m) =>
          var r := Generate(t, w, profile, NegativeArgs(n, m, digest));
          if r.out.HandlerReturns? && r.out.code != 0 then r.(out := Exit(1)) else r
  }

  /** The comparison `verify_id_block_fields` makes. */
  predicate FieldsMatch(r: R.Report, m: Meta)
    requires IdFieldOk(m.familyId) && IdFieldOk(m.imageId)
  {
    && r.guestSvn == m.guestSvn
    && r.policy == m.policy
    && r.familyId == IdBytes(m.familyId)
    && r.imageId == IdBytes(m.imageId)
    && r.IdBlockUsed()
  }

  /** `verify_id_block_fields`: a report that cannot be read or parsed, or an
      unknown host processor, fails the step. */
  function VerifyFields<W>(t: Tools<W>, w: W, profile: Option<Profile>): Run<W> {
    var g := t.hostGeneration(w);
    var data := t.report(w);
    if g.None? || data.None? then Run(w, profile, Exit(1))
    else
      match R.Parse(data.value, g)
      case Err(_) => Run(w, profile, Exit(1))
      case Ok(r) =>
        match ReadMeta(t.vars)
        case None => Run(w, profile, Exit(1))
        case Some(m) => Run(w, profile, Exit(if FieldsMatch(r, m) then 0 else 1))
  }

  function Call<W>(t: Tools<W>, w: W, handler: string, view: View): Run<W> {
    var p := view.profile;
    match handler
    case "calculate_measurement" => CalculateMeasurement(t, w, p)
    case "generate_id_block" => GenerateIdBlock(t, w, p)
    case "verify_id_block_fields" => VerifyFields(t, w, p)
    case "set_bad_measurement" => SetNegative(BadMeasurement, t, w, p)
    case "set_incompatible_policy" => SetNegative(SmtPolicy, t, w, p)
    case "set_bad_abi_version" => SetNegative(AbiVersion, t, w, p)
    case "smt_case_not_applicable" => Run(w, p, Exit(0))
    case _ => Run(w, p, HandlerErrs("Test module has no attribute"))
  }

  /** Any world, with this module's handlers. */
  function WithHandlers<W>(base: Env<W>, t: Tools<W>): Env<W> {
    base.(call := (w: W, h: string, view: View) =>
      var r := Call(t, w, h, view);
      (r.world, r.profile, r.out))
  }

  // ── The plan ──────────────────────────────────────────────────

  const OK := ExitCode(0)

  function PositiveSteps(): (s: seq<Step>)
    ensures |s| == 7
  {
    [ Step("Calculate measurement", Setup, Callable("calculate_measurement"), OK),
      Step("Generate ID block", Setup, Callable("generate_id_block"), OK),
      Step("Launch with valid ID block", Setup, VmLaunch("positive-valid-id-block-vm"), OK),
      Step("Get attestation report", Required, Guest("snpguest report report.bin request.bin --random"), OK),
      Step("Pull attestation report", Required, GuestPull("report.bin", "report.bin"), OK),
      Step("Stop VM", Info, VmStop, OK),
      Step("Verify ID block fields in report", Required, Callable("verify_id_block_fields"), OK) ]
  }

  function Handler(n: Negative): string {
    match n
    case BadMeasurement => "set_bad_measurement"
    case SmtPolicy => "set_incompatible_policy"
    case AbiVersion => "set_bad_abi_version"
  }

  /** The reason each refusal must give. */
  function Reason(n: Negative): string {
    match n
    case BadMeasurement => "Bad measurement"
    case SmtPolicy => "SNP_LAUNCH_START"
    case AbiVersion => "Policy is not allowed"
  }

  function GuestId(n: Negative): string {
    match n
    case BadMeasurement => "negative-bad-measurement-vm"
    case SmtPolicy => "negative-smt-policy-vm"
    case AbiVersion => "negative-abi-version-vm"
  }

  function Names(n: Negative): (string, string, string) {
    match n
    case BadMeasurement =>
      ("Set bad measurement in ID block", "Launch with bad measurement (expect rejection)",
       "Stop VM (after bad measurement)")
    case SmtPolicy =>
      ("Set incompatible policy (SMT)", "Launch with SMT-incompatible policy (expect rejection)",
       "Stop VM (after SMT policy)")
    case AbiVersion =>
      ("Set impossible ABI version", "Launch with impossible ABI version (expect rejection)",
       "Stop VM (after ABI version)")
  }

  function NegativeSteps(n: Negative): (s: seq<Step>)
    ensures |s| == 3
  {
    [ Step(Names(n).0, Required, Callable(Handler(n)), OK),
      Step(Names(n).1, Required, VmLaunch(GuestId(n)), StdoutContains(Reason(n))),
      Step(Names(n).2, Info, VmStop, OK) ]
  }

  function SmtSteps(smtActive: bool): (s: seq<Step>)
    ensures |s| == if smtActive then 3 else 1
  {
    if smtActive then NegativeSteps(SmtPolicy)
    else [Step("SMT policy case not applicable", Info, Callable("smt_case_not_applicable"), OK)]
  }

  /** `steps()`. */
  function Plan(smtActive: bool): (s: seq<Step>)
    ensures |s| == if smtActive then 16 else 14
  {
    PositiveSteps() + NegativeSteps(BadMeasurement) + SmtSteps(smtActive) + NegativeSteps(AbiVersion)
  }

  /** Where the handler of a negative case stands; its launch comes next. */
  function IndexOf(n: Negative, smtActive: bool): nat {
    match n
    case BadMeasurement => 7
    case SmtPolicy => 10
    case AbiVersion => if smtActive then 13 else 11
  }
}
