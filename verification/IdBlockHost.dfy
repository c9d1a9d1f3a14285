/** A host that enforces the firmware's rules on ID blocks, on which the ID block
    test passes. It shows that the hypotheses of the completeness theorem, and so
    the `pass` of the soundness theorem, can be met for all metadata. */
module IdBlockHost {
  import opened Prelude
  import opened Models
  import opened Runner
  import opened Machine
  import opened Bits
  import opened IdBlock
  import opened IdBlockProperties
  import opened IdBlockComplete
  import R = AttestationReport

  /** What has been done on the host: the measurement, the last generator call,
      and the pull of the report. */
  datatype Bench = Bench(measured: bool, last: Option<GenArgs>, pulled: bool)

  // ── The firmware's rules ──────────────────────────────────────

  /** ABI_MAJOR, bits 15 to 8, asks for version 255, which no firmware has. */
  predicate AbiImpossible(policy: nat) {
    forall k | 8 <= k < 16 :: Bit(policy, k)
  }

  /** A policy that this host can satisfy. */
  predicate Acceptable(policy: nat, smt: bool) {
    !AbiImpossible(policy) && (smt ==> Bit(policy, 16))
  }

  /** Why the firmware refuses a launch, if it does: a block for another
      measurement, an ABI version it does not have, or a guest that may not run
      with SMT on a host where it is active. */
  function Refusal(digest: string, smt: bool, p: Profile): Option<string> {
    if p.idBlock != Some("0x" + digest) then Some(Reason(BadMeasurement))
    else if p.policy.None? || AbiImpossible(p.policy.value) then Some(Reason(AbiVersion))
    else if smt && !Bit(p.policy.value, 16) then Some(Reason(SmtPolicy))
    else None
  }

  /** QEMU exits at once with the firmware's error. */
  function BootOn(digest: string, smt: bool, p: Profile): Boot {
    match Refusal(digest, smt, p)
    case Some(reason) => ExitsAtOnce(1, reason)
    case None => Ready(1)
  }

  // ── The report ────────────────────────────────────────────────

  function Zeros(n: nat): (b: bytes)
    ensures |b| == n && forall i | 0 <= i < n :: b[i] == 0
  {
    if n == 0 then [] else [0] + Zeros(n - 1)
  }

  const GENERATION := R.Generation("Genoa", R.Legacy)

  predicate Encodable(m: Meta) {
    && IdFieldOk(m.familyId) && IdFieldOk(m.imageId)
    && m.guestSvn < R.Pow256(4) && m.policy < R.Pow256(8)
  }

  /** A version 2 report with the requested fields and an ID key. */
  function ContentsFor(m: Meta): (c: R.Contents)
    requires Encodable(m)
    ensures c.Fits()
  {
    R.Contents(2, m.guestSvn, m.policy, IdBytes(m.familyId), IdBytes(m.imageId), 0,
               Zeros(64), Zeros(48), Zeros(32), [1] + Zeros(47), Zeros(48), Zeros(32),
               R.TcbVersion(0, 0, 0, 0, None), R.Cpuid(0, 0, 0))
  }

  function ReportFor(m: Meta): bytes
    requires Encodable(m)
  {
    R.Write(Zeros(R.REPORT_SIZE), ContentsFor(m), R.Legacy)
  }

  /** The report parses to the fields that were asked for. */
  lemma ReportForMatches(m: Meta)
    requires Encodable(m)
    ensures R.Parse(ReportFor(m), Some(GENERATION)).Ok?
    ensures FieldsMatch(R.Parse(ReportFor(m), Some(GENERATION)).report, m)
  {
    var c := ContentsFor(m);
    R.RoundTripOnHost(Zeros(R.REPORT_SIZE), c, GENERATION);
    assert c.idKeyDigest[0] == 1;
    assert R.Parse(ReportFor(m), Some(GENERATION)).report.idKeyDigest[0] == 1;
  }

  // ── The host ──────────────────────────────────────────────────

  function FileOf(digest: string, w: Bench, name: string): FileText {
    if name == MEASUREMENT_FILE then (if w.measured then Text(digest) else Missing)
    else if w.last.Some? && name in {w.last.value.idFile, w.last.value.authFile} then Text(w.last.value.measurement)
    else Missing
  }

  function ToolsOf(m: Meta, digest: string, smt: bool): Tools<Bench>
    requires Encodable(m)
  {
    Tools(Vars(m.familyId, m.imageId, Some(m.guestSvn), Some(m.policy)),
          (w: Bench, name: string) => FileOf(digest, w, name),
          (w: Bench, p: Profile) => true,
          (w: Bench) => (w.(measured := true), Exits(0)),
          (w: Bench, args: GenArgs) => (w.(last := Some(args)), Exits(0)),
          (w: Bench) => smt,
          (w: Bench) => if w.pulled then Some(ReportFor(m)) else None,
          (w: Bench) => Some(GENERATION))
  }

  /** Host commands do nothing; the handlers are the test's own. */
  function EnvOf(digest: string, smt: bool): Env<Bench> {
    Env((w: Bench, c: string) => (w, ShellExits(0, "", "")),
        (w: Bench, p: Profile) => (w, BootOn(digest, smt, p)),
        (w: Bench, l: Launch) => (w, Stopped),
        (w: Bench, l: Launch) => (w, JournalDone),
        (w: Bench, l: Launch, c: string) => (w, VsockReply(0, "", "")),
        (w: Bench, l: Launch, src: string, dest: string) => (w.(pulled := true), Pulled),
        (w: Bench, h: string, view: View) => (w, view.profile, HandlerErrs("")),
        (w: Bench) => "")
  }

  function ScenarioOf(m: Meta, digest: string): Scenario<Bench> {
    Scenario(m, digest,
             (w: Bench) => w.measured,
             (w: Bench) => w.pulled,
             (args: GenArgs) => Strip(args.measurement),
             (args: GenArgs) => Strip(args.measurement))
  }

  // ── The blocks ────────────────────────────────────────────────

  lemma HexHasNoSpace(digest: string)
    requires IsDigest(digest)
    ensures Strip("0x" + digest) == "0x" + digest && Strip(digest) == digest
  {
    var s := "0x" + digest;
    assert digest[0] in digest && digest[|digest| - 1] in digest;
    assert s[0] == '0' && s[|s| - 1] == digest[|digest| - 1];
    StripPad("", s, "");
    StripPad("", digest, "");
    assert "" + s + "" == s && "" + digest + "" == digest;
  }

  lemma FlipDiffers(digest: string)
    requires IsDigest(digest)
    ensures IsDigest(Flip(digest)) && "0x" + Flip(digest) != "0x" + digest
  {
    FlipChangesFirstByte(digest);
    assert ByteAt(Flip(digest), 0) != ByteAt(digest, 0);
    assert ("0x" + Flip(digest))[2..] == Flip(digest) && ("0x" + digest)[2..] == digest;
  }

  lemma PoliciesRefused(policy: nat)
    ensures AbiImpossible(ImpossibleAbi(policy)) && !Bit(WithoutSmt(policy), 16)
    ensures AbiImpossible(WithoutSmt(policy)) ==> AbiImpossible(policy)
  {
    forall k | 8 <= k < 16
      ensures Bit(ImpossibleAbi(policy), k)
      ensures Bit(WithoutSmt(policy), k) <==> Bit(policy, k)
    {
      ImpossibleAbiBits(policy, k);
      WithoutSmtBits(policy, k);
    }
    WithoutSmtBits(policy, 16);
  }

  lemma ContainsEnd(a: string, b: string)
    ensures Contains(a + b, b)
  {
    assert OccursAt(a + b, b, |a|);
  }

  lemma RefusedWithReason(p: Profile, reason: string)
    requires reason != ""
    ensures RefusedWith(LaunchOf(p, ExitsAtOnce(1, reason)), reason)
  {
    var head := "QEMU exited immediately with code " + IntStr(1);
    ContainsEnd(head + ": ", reason);
    assert head + (": " + reason) == (head + ": ") + reason;
  }

  lemma RefusalIs(s: Scenario<Bench>, m: Meta, digest: string, smt: bool, n: Negative, p: Profile)
    requires s == ScenarioOf(m, digest) && IsDigest(digest) && Acceptable(m.policy, smt) && Tests(n, smt)
    requires s.Carried(p, s.Altered(n))
    ensures Refusal(digest, smt, p) == Some(Reason(n))
  {
    FlipDiffers(digest);
    HexHasNoSpace(digest);
    HexHasNoSpace(Flip(digest));
    PoliciesRefused(m.policy);
  }

  lemma ValidBoots(s: Scenario<Bench>, m: Meta, digest: string, smt: bool, p: Profile)
    requires s == ScenarioOf(m, digest) && IsDigest(digest) && Acceptable(m.policy, smt)
    requires s.Carried(p, s.Valid())
    ensures Refusal(digest, smt, p).None?
  {
    HexHasNoSpace(digest);
  }

  // ── It cooperates ─────────────────────────────────────────────

  lemma DigestRead(digest: string)
    requires IsDigest(digest)
    ensures ReadMeasurement(Text(digest)) == Digest(digest)
  {
    HexHasNoSpace(digest);
    MeasurementAccepted(digest, digest);
  }

  lemma ToolsOfWork(m: Meta, digest: string, smt: bool)
    requires Encodable(m) && IsDigest(digest)
    ensures ToolsWork(ToolsOf(m, digest, smt), smt, ScenarioOf(m, digest))
  {
    var t, s := ToolsOf(m, digest, smt), ScenarioOf(m, digest);
    DigestRead(digest);
    forall w, args | s.measured(w) && UsesNamedFiles(args)
      ensures GeneratorWorks(t, s, w, args)
    {
      NamesDiffer();
    }
  }

  lemma NamesDiffer()
    ensures MEASUREMENT_FILE !in {ID_BLOCK_FILE, ID_AUTH_FILE, NEG_BLOCK_FILE, NEG_AUTH_FILE}
  {
    assert MEASUREMENT_FILE[0] == 'g';
  }

  lemma EnvOfBoots(m: Meta, digest: string, smt: bool)
    requires Encodable(m) && IsDigest(digest) && Acceptable(m.policy, smt)
    ensures BootsAsItShould(EnvOf(digest, smt), smt, ScenarioOf(m, digest))
  {
    var env, s := EnvOf(digest, smt), ScenarioOf(m, digest);
    forall w, p | s.measured(w) && s.Carried(p, s.Valid())
      ensures env.boot(w, p).1.Ready? && s.measured(env.boot(w, p).0)
    {
      ValidBoots(s, m, digest, smt, p);
    }
    forall n: Negative, w, p | Tests(n, smt) && s.measured(w) && s.Carried(p, s.Altered(n))
      ensures RefusedWith(LaunchOf(p, env.boot(w, p).1), Reason(n)) && s.measured(env.boot(w, p).0)
    {
      RefusalIs(s, m, digest, smt, n, p);
      ReasonInitial(n);
      RefusedWithReason(p, Reason(n));
    }
  }

  lemma GuestsOfWork(m: Meta, digest: string, smt: bool)
    ensures GuestWorks(EnvOf(digest, smt), ScenarioOf(m, digest))
  {
  }

  lemma ReportsOfMatch(m: Meta, digest: string, smt: bool)
    requires Encodable(m)
    ensures ReportsTruly(ToolsOf(m, digest, smt), ScenarioOf(m, digest))
  {
    var t, s := ToolsOf(m, digest, smt), ScenarioOf(m, digest);
    ReportForMatches(m);
    forall w | s.measured(w) && s.delivered(w)
      ensures t.hostGeneration(w) == Some(GENERATION) && t.report(w) == Some(ReportFor(m))
    {
      assert w.pulled;
    }
  }

  lemma HostCooperates(m: Meta, digest: string, smt: bool)
    requires Encodable(m) && IsDigest(digest) && Acceptable(m.policy, smt)
    ensures Cooperates(EnvOf(digest, smt), ToolsOf(m, digest, smt), smt, ScenarioOf(m, digest))
  {
    ToolsOfWork(m, digest, smt);
    EnvOfBoots(m, digest, smt);
    GuestsOfWork(m, digest, smt);
    ReportsOfMatch(m, digest, smt);
  }

  /** For every encodable metadata with a policy the host can satisfy, and every
      measurement, the test passes on this host, with and without SMT. */
  lemma RuleAbidingHostPasses(m: Meta, digest: string, smt: bool, cfg: Config, profile: Profile)
    requires Encodable(m) && IsDigest(digest) && Acceptable(m.policy, smt)
    ensures ExecuteTest(WithHandlers(EnvOf(digest, smt), ToolsOf(m, digest, smt)), cfg, Plan(smt),
                        Bench(false, None, false), Some(profile)).finish == Verdict(Pass)
  {
    HostCooperates(m, digest, smt);
    CooperatingHostPasses(EnvOf(digest, smt), ToolsOf(m, digest, smt), smt, ScenarioOf(m, digest), cfg,
                          Bench(false, None, false), profile);
  }
}
