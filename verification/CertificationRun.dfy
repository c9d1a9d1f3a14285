/** A certification from end to end: what a certified level says about the runs
    of the tests behind it. */
module CertificationRun {
  import opened Prelude
  import opened Models
  import opened Machine
  import opened Evidence
  import C = Certification
  import L = CertifiedLevel

  /** How loading a test's plan ends. */
  datatype Load = Plan(steps: seq<Step>, profile: Option<Profile>) | LoadFails | LoadEscapes

  /** Everything a certification depends on besides the manifest: the plans of
      its tests and the worlds they run in. */
  datatype Suite<!W> = Suite(
    load: (W, L.TestDefinition) -> (W, Load),
    envOf: L.TestDefinition -> Env<W>,
    cfgOf: L.TestDefinition -> Config)

  /** `execute_test` with its plan: one that cannot be loaded is an error. */
  function RunTest<W>(s: Suite<W>, w: W, t: L.TestDefinition): (W, Option<L.Result>) {
    match s.load(w, t)
    case (w', LoadEscapes) => (w', None)
    case (w', LoadFails) => (w', Some(L.Known(Error)))
    case (w', Plan(steps, profile)) =>
      var out := ExecuteTest(s.envOf(t), s.cfgOf(t), steps, w', profile);
      (out.st.world, match out.finish case Escaped => None case Verdict(status) => Some(L.Known(status)))
  }

  function Runner<W>(s: Suite<W>): L.Run<W> {
    (w: W, t: L.TestDefinition) => RunTest(s, w, t)
  }

  /** Every setup and required step of the plan has an action in the history that
      is the step's own and ended as the step expected. */
  ghost predicate Backed(steps: seq<Step>, trace: seq<Event>) {
    forall j | 0 <= j < |steps| && !steps[j].severity.Info? ::
      exists k :: 0 <= k < |trace| && trace[k].at == j && Confirms(steps[j], trace[k].action)
  }

  /** In this world the test's plan loads, and its run comes to the verdict
      `pass`, with evidence for every step that counts. */
  ghost predicate Demonstrated<W>(s: Suite<W>, w: W, t: L.TestDefinition) {
    var (w', plan) := s.load(w, t);
    && plan.Plan?
    && var out := ExecuteTest(s.envOf(t), s.cfgOf(t), plan.steps, w', plan.profile);
       out.finish == Verdict(Pass) && Backed(plan.steps, out.st.trace)
  }

  lemma PassDemonstrates<W>(s: Suite<W>, w: W, t: L.TestDefinition)
    requires RunTest(s, w, t).1 == Some(L.PASSED)
    ensures Demonstrated(s, w, t)
  {
    var (w', plan) := s.load(w, t);
    assert ExecuteTest(s.envOf(t), s.cfgOf(t), plan.steps, w', plan.profile).finish == Verdict(Pass);
    PassIsEvidenced(s.envOf(t), s.cfgOf(t), plan.steps, w', plan.profile);
  }

  /** The tests that filters select from manifest `mv`. */
  function Selected(d: L.Definition, filters: seq<string>, mv: string): seq<L.TestDefinition> {
    L.KeptTests(d.tests, C.LevelFilters(filters, mv))
  }

  /** The world in which the n-th test of the manifest is run, once the selected
      tests before it have been. */
  ghost function WorldAt<W>(s: Suite<W>, d: L.Definition, filters: seq<string>, mv: string, w: W, n: nat): W
    requires n < |d.tests|
  {
    var j := L.KeptIndex(d.tests, C.LevelFilters(filters, mv), n);
    var selected := Selected(d, filters, mv);
    if j <= |selected| then L.RunTests(Runner(s), selected[..j], w).world else w
  }

  /** From the command line to the evidence: when the run of manifest `mv`, in
      which no exception cut the certification short, certifies a level, then
      every test of the manifest at or below it was asked for by the filters, and
      its run, in the world that the tests before it left, came to the verdict
      `pass` with evidence for each of its setup and required steps. */
  lemma CertifiedIsDemonstrated<W>(s: Suite<W>, filters: seq<string>, mv: string, d: L.Definition, w: W,
                                   level: string, n: nat)
    requires exists f :: f in filters && C.ManifestVersion(f) == mv
    requires L.Loaded(d)
    requires var ran := L.RunTests(Runner(s), Selected(d, filters, mv), w);
             !ran.escaped && L.HighestCertified(ran.results, d.allLevels, d.cap) == L.Level(level)
    requires L.AtOrBelow(d, n, level)
    ensures C.Meant(filters, mv, d.tests[n].level)
    ensures Demonstrated(s, WorldAt(s, d, filters, mv, w, n), d.tests[n])
  {
    var lf, selected := C.LevelFilters(filters, mv), Selected(d, filters, mv);
    var ran := L.RunTests(Runner(s), selected, w);
    L.RunTestsAre(Runner(s), selected, w);
    L.FilterKeepsLevels(d, lf);
    L.CertifiedWasAskedFor(filters, mv, d, ran.results, level, n);
    var j := L.KeptIndex(d.tests, lf, n);
    assert L.RanAt(Runner(s), selected, w, ran.results, j);
    PassDemonstrates(s, WorldAt(s, d, filters, mv, w, n), d.tests[n]);
  }
}
