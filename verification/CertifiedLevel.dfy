/** How the results of a certification run fold into one result and a certified
    level, and what a certified level proves about the manifest. */
module CertifiedLevel {
  import opened Prelude
  import opened Models
  import opened Certification

  datatype TestDefinition = TestDefinition(name: string, level: string, moduleName: string)

  /** A test's result; `Other` is a state the harness does not know. */
  datatype Result = Known(status: Status) | Other(name: string)

  const PASSED := Known(Pass)

  datatype TestResult = TestResult(test: TestDefinition, result: Result)

  datatype Definition = Definition(tests: seq<TestDefinition>, allLevels: seq<string>, cap: Option<string>)

  // ── Levels of a manifest ──────────────────────────────────────

  function LevelsOf(tests: seq<TestDefinition>): seq<string> {
    if tests == [] then []
    else
      var init := LevelsOf(tests[..|tests| - 1]);
      var level := tests[|tests| - 1].level;
      if level == "" || level in init then init else init + [level]
  }

  /** `CertificationDefinition.__post_init__`: the levels are collected from the
      tests unless given, and the cap must be one of them. `None` where it
      raises. */
  function Make(tests: seq<TestDefinition>, given: seq<string>, cap: Option<string>): Option<Definition> {
    var levels := if given == [] then LevelsOf(tests) else given;
    if cap.Some? && levels != [] && cap.value !in levels then None
    else Some(Definition(tests, levels, cap))
  }

  /** The loop that collects the levels, with its set of levels seen. */
  method CollectLevels(tests: seq<TestDefinition>) returns (levels: seq<string>)
    ensures levels == LevelsOf(tests)
  {
    levels := [];
    var seen: set<string> := {};
    for i := 0 to |tests|
      invariant levels == LevelsOf(tests[..i])
      invariant forall l :: l in seen <==> l in levels
    {
      assert tests[..i + 1][..i] == tests[..i];
      var level := tests[i].level;
      if level != "" && level !in seen {
        seen := seen + {level};
        levels := levels + [level];
      }
    }
    assert tests[..|tests|] == tests;
  }

  lemma {:induction false} LevelsAre(tests: seq<TestDefinition>)
    ensures forall l :: l in LevelsOf(tests) <==> l != "" && exists t :: t in tests && t.level == l
    ensures forall t :: t in tests && t.level != "" ==> t.level in LevelsOf(tests)
    ensures forall i, j | 0 <= i < j < |LevelsOf(tests)| :: LevelsOf(tests)[i] != LevelsOf(tests)[j]
  {
    if tests != [] {
      var n := |tests| - 1;
      LevelsAre(tests[..n]);
      assert tests == tests[..n] + [tests[n]];
      assert tests[n] in tests;
    }
  }

  // ── Filtering ─────────────────────────────────────────────────

  function KeptTests(tests: seq<TestDefinition>, levelFilters: seq<string>): seq<TestDefinition> {
    if tests == [] then []
    else
      var n := |tests| - 1;
      KeptTests(tests[..n], levelFilters) + (if Kept(levelFilters, tests[n].level) then [tests[n]] else [])
  }

  /** `_filter_tests`. */
  function FilterTests(d: Definition, levelFilters: seq<string>): Option<Definition> {
    if levelFilters == [] then Some(d)
    else Make(KeptTests(d.tests, levelFilters), d.allLevels, d.cap)
  }

  lemma {:induction false} KeptTestsAre(tests: seq<TestDefinition>, levelFilters: seq<string>)
    ensures forall t :: t in KeptTests(tests, levelFilters) <==> t in tests && Kept(levelFilters, t.level)
    ensures levelFilters == [] ==> KeptTests(tests, levelFilters) == tests
  {
    if tests != [] {
      var n := |tests| - 1;
      KeptTestsAre(tests[..n], levelFilters);
      assert tests == tests[..n] + [tests[n]];
    }
  }

  /** Where the n-th test stands after filtering, if it is kept. */
  function KeptIndex(tests: seq<TestDefinition>, levelFilters: seq<string>, n: nat): nat
    requires n <= |tests|
  {
    |KeptTests(tests[..n], levelFilters)|
  }

  lemma {:induction false} KeptAt(tests: seq<TestDefinition>, levelFilters: seq<string>, n: nat)
    requires n < |tests| && Kept(levelFilters, tests[n].level)
    ensures var j := KeptIndex(tests, levelFilters, n);
            j < |KeptTests(tests, levelFilters)| && KeptTests(tests, levelFilters)[j] == tests[n]
    decreases |tests|
  {
    var last := |tests| - 1;
    if n < last {
      KeptAt(tests[..last], levelFilters, n);
      assert tests[..last][..n] == tests[..n];
    }
  }

  lemma EmptyOrMember(tests: seq<TestDefinition>)
    ensures tests == [] || exists t :: t in tests
  {
    if tests != [] {
      assert tests[0] in tests;
    }
  }

  /** A manifest as loaded: levels collected from its tests. */
  predicate Loaded(d: Definition) {
    Make(d.tests, [], d.cap) == Some(d)
  }

  lemma LevelsNamed(d: Definition, k: nat)
    requires Loaded(d) && k < |d.allLevels|
    ensures d.allLevels[k] != ""
  {
    LevelsAre(d.tests);
    assert d.allLevels[k] in LevelsOf(d.tests);
  }

  /** Filtering a loaded manifest never raises and keeps its levels and cap. */
  lemma FilterKeepsLevels(d: Definition, levelFilters: seq<string>)
    requires Loaded(d)
    ensures FilterTests(d, levelFilters).Some?
    ensures var f := FilterTests(d, levelFilters).value;
            && f.tests == KeptTests(d.tests, levelFilters)
            && f.allLevels == d.allLevels && f.cap == d.cap
            && (forall t :: t in f.tests <==> t in d.tests && Kept(levelFilters, t.level))
  {
    KeptTestsAre(d.tests, levelFilters);
    LevelsAre(d.tests);
    if levelFilters != [] && d.allLevels == [] {
      assert forall t :: t in d.tests ==> t.level == "";
      EmptyOrMember(KeptTests(d.tests, levelFilters));
    }
  }

  // ── Folding the results ───────────────────────────────────────

  /** _RESULT_SEVERITY; unknown states rank above every known one. */
  function Severity(r: Result): nat {
    match r
    case Known(Pass) => 0
    case Known(Skip) => 1
    case Known(Fail) => 2
    case Known(Error) => 3
    case Other(_) => 4
  }

  /** `_worse_result`. */
  function Worse(current: Result, candidate: Result): Result {
    if Severity(candidate) > Severity(current) then candidate else current
  }

  function Fold(rs: seq<TestResult>): Result {
    if rs == [] then PASSED else Worse(Fold(rs[..|rs| - 1]), rs[|rs| - 1].result)
  }

  /** Running a test takes a world to another and yields a result, or lets an
      exception out (`None`), which ends the certification. */
  type Run<!W> = (W, TestDefinition) -> (W, Option<Result>)

  datatype Ran<W> = Ran(world: W, results: seq<TestResult>, escaped: bool)

  /** The tests one after the other, each in the world the one before left. */
  function RunTests<W>(run: Run<W>, tests: seq<TestDefinition>, w: W): Ran<W> {
    if tests == [] then Ran(w, [], false)
    else
      var n := |tests| - 1;
      var before := RunTests(run, tests[..n], w);
      if before.escaped then before
      else
        match run(before.world, tests[n])
        case (w', None) => Ran(w', before.results, true)
        case (w', Some(r)) => Ran(w', before.results + [TestResult(tests[n], r)], false)
  }

  /** One result per test, in order. */
  predicate ResultsOf(tests: seq<TestDefinition>, rs: seq<TestResult>) {
    |rs| == |tests| && forall i | 0 <= i < |rs| :: rs[i].test == tests[i]
  }

  /** The i-th test was run in the world that the tests before it left, and its
      result is the one recorded. */
  ghost predicate RanAt<W>(run: Run<W>, tests: seq<TestDefinition>, w: W, rs: seq<TestResult>, i: nat) {
    && i < |tests| && i < |rs|
    && !RunTests(run, tests[..i], w).escaped
    && run(RunTests(run, tests[..i], w).world, tests[i]).1 == Some(rs[i].result)
  }

  /** A certification that no exception cut short has one result per test, in
      order, each obtained in the world left by the tests before it. */
  lemma {:induction false} RunTestsAre<W>(run: Run<W>, tests: seq<TestDefinition>, w: W)
    ensures var ran := RunTests(run, tests, w);
            !ran.escaped ==>
              && ResultsOf(tests, ran.results)
              && forall i | 0 <= i < |tests| :: RanAt(run, tests, w, ran.results, i)
  {
    if tests != [] && !RunTests(run, tests, w).escaped {
      var n := |tests| - 1;
      var before, rs := RunTests(run, tests[..n], w), RunTests(run, tests, w).results;
      RunTestsAre(run, tests[..n], w);
      forall i | 0 <= i < |tests|
        ensures RanAt(run, tests, w, rs, i)
        ensures rs[i].test == tests[i]
      {
        if i < n {
          assert RanAt(run, tests[..n], w, before.results, i);
          assert tests[..n][..i] == tests[..i];
        }
      }
    }
  }

  lemma EscapeEnds<W>(run: Run<W>, tests: seq<TestDefinition>, w: W, i: nat)
    requires i <= |tests| && RunTests(run, tests[..i], w).escaped
    ensures RunTests(run, tests, w) == RunTests(run, tests[..i], w)
    decreases |tests| - i
  {
    if i == |tests| {
      assert tests[..i] == tests;
    } else {
      assert tests[..i + 1][..i] == tests[..i];
      EscapeEnds(run, tests, w, i + 1);
    }
  }

  /** The loop of `execute_certification`. */
  method ExecuteCertification<W>(d: Definition, run: Run<W>, w: W) returns (overall: Result, ran: Ran<W>)
    ensures ran == RunTests(run, d.tests, w)
    ensures overall == Fold(ran.results)
  {
    overall := PASSED;
    var world: W, results := w, [];
    for i := 0 to |d.tests|
      invariant Ran(world, results, false) == RunTests(run, d.tests[..i], w)
      invariant overall == Fold(results)
    {
      assert d.tests[..i + 1][..i] == d.tests[..i];
      var (w', r) := run(world, d.tests[i]);
      world := w';
      if r.None? {
        EscapeEnds(run, d.tests, w, i + 1);
        return overall, Ran(world, results, true);
      }
      var tr := TestResult(d.tests[i], r.value);
      ghost var before := results;
      results := results + [tr];
      assert results[..|results| - 1] == before;
      overall := Worse(overall, tr.result);
    }
    assert d.tests[..|d.tests|] == d.tests;
    return overall, Ran(world, results, false);
  }

  /** The fold is the worst result: no result is worse than it, and it is one of
      them unless it is the initial pass. */
  lemma {:induction false} FoldIsWorst(rs: seq<TestResult>)
    ensures forall i | 0 <= i < |rs| :: Severity(rs[i].result) <= Severity(Fold(rs))
    ensures Fold(rs) == PASSED || exists i :: 0 <= i < |rs| && rs[i].result == Fold(rs)
    ensures Fold(rs) == PASSED <==> forall i | 0 <= i < |rs| :: rs[i].result == PASSED
  {
    if rs != [] {
      var n := |rs| - 1;
      var init := rs[..n];
      FoldIsWorst(init);
      assert forall i | 0 <= i < n :: rs[i] == init[i];
      if Fold(rs) == Fold(init) && Fold(rs) != PASSED {
        var i :| 0 <= i < n && init[i].result == Fold(init);
        assert rs[i].result == Fold(rs);
      }
    }
  }

  /** The order of the tests does not matter: any order folds to a result of the
      same severity, hence to the same result when all states are known. */
  lemma FoldIgnoresOrder(a: seq<TestResult>, b: seq<TestResult>)
    requires multiset(a) == multiset(b)
    ensures Severity(Fold(a)) == Severity(Fold(b))
    ensures (forall i | 0 <= i < |a| :: !a[i].result.Other?) ==> Fold(a) == Fold(b)
  {
    FoldNotBelow(a, b);
    FoldNotBelow(b, a);
    FoldIsWorst(a);
  }

  lemma FoldNotBelow(a: seq<TestResult>, b: seq<TestResult>)
    requires multiset(a) == multiset(b)
    ensures Severity(Fold(a)) <= Severity(Fold(b))
  {
    FoldIsWorst(a);
    FoldIsWorst(b);
    if Fold(a) != PASSED {
      var i :| 0 <= i < |a| && a[i].result == Fold(a);
      assert a[i] in multiset(a);
      assert a[i] in b;
      var j :| 0 <= j < |b| && b[j] == a[i];
    }
  }

  // ── Results by level ──────────────────────────────────────────

  /** The results at a level; tests without one are at none. */
  function AtLevel(rs: seq<TestResult>, level: string): seq<Result> {
    if rs == [] then []
    else
      var init := AtLevel(rs[..|rs| - 1], level);
      var last := rs[|rs| - 1];
      if level != "" && last.test.level == level then init + [last.result] else init
  }

  predicate AllPass(rs: seq<Result>) {
    forall i | 0 <= i < |rs| :: rs[i] == PASSED
  }

  /** The level was run and everything at it passed. */
  predicate LevelPassed(rs: seq<TestResult>, level: string) {
    AtLevel(rs, level) != [] && AllPass(AtLevel(rs, level))
  }

  ghost predicate GroupedBy(rs: seq<TestResult>, byLevel: map<string, seq<Result>>) {
    && (forall l :: l in byLevel <==> AtLevel(rs, l) != [])
    && (forall l :: l in byLevel ==> byLevel[l] == AtLevel(rs, l))
  }

  lemma AtLevelNext(rs: seq<TestResult>, i: nat, l: string)
    requires i < |rs|
    ensures AtLevel(rs[..i + 1], l) ==
              if l != "" && rs[i].test.level == l then AtLevel(rs[..i], l) + [rs[i].result] else AtLevel(rs[..i], l)
  {
    assert rs[..i + 1][..i] == rs[..i];
  }

  /** The grouping loop shared by `_highest_certified_level` and the writers. */
  method GroupByLevel(rs: seq<TestResult>) returns (byLevel: map<string, seq<Result>>)
    ensures GroupedBy(rs, byLevel)
  {
    byLevel := map[];
    for i := 0 to |rs|
      invariant GroupedBy(rs[..i], byLevel)
    {
      forall l {
        AtLevelNext(rs, i, l);
      }
      var level := rs[i].test.level;
      if level != "" {
        var group := if level in byLevel then byLevel[level] else [];
        byLevel := byLevel[level := group + [rs[i].result]];
      }
    }
    assert rs[..|rs|] == rs;
  }

  lemma {:induction false} AtLevelIs(rs: seq<TestResult>, level: string)
    requires level != ""
    ensures AtLevel(rs, level) != [] <==> exists i :: 0 <= i < |rs| && rs[i].test.level == level
    ensures AllPass(AtLevel(rs, level)) <==>
              forall i | 0 <= i < |rs| && rs[i].test.level == level :: rs[i].result == PASSED
  {
    if rs != [] {
      var n := |rs| - 1;
      var init := rs[..n];
      AtLevelIs(init, level);
      assert forall i | 0 <= i < n :: rs[i] == init[i];
      var last := rs[n];
      if last.test.level == level {
        var all := AtLevel(init, level) + [last.result];
        assert all[|all| - 1] == last.result;
        assert forall i | 0 <= i < |AtLevel(init, level)| :: all[i] == AtLevel(init, level)[i];
      }
    }
  }

  // ── The chain ─────────────────────────────────────────────────

  /** The length of the longest prefix of levels that passed. */
  function Chain(rs: seq<TestResult>, levels: seq<string>): (n: nat)
    ensures n <= |levels|
  {
    if levels == [] || !LevelPassed(rs, levels[0]) then 0 else 1 + Chain(rs, levels[1..])
  }

  lemma {:induction false} ChainIs(rs: seq<TestResult>, levels: seq<string>)
    ensures var n := Chain(rs, levels);
            && (forall i | 0 <= i < n :: LevelPassed(rs, levels[i]))
            && (n < |levels| ==> !LevelPassed(rs, levels[n]))
  {
    if levels != [] && LevelPassed(rs, levels[0]) {
      ChainIs(rs, levels[1..]);
    }
  }

  lemma ChainIsLongest(rs: seq<TestResult>, levels: seq<string>, n: nat)
    requires n <= |levels|
    requires forall i | 0 <= i < n :: LevelPassed(rs, levels[i])
    requires n < |levels| ==> !LevelPassed(rs, levels[n])
    ensures Chain(rs, levels) == n
  {
    ChainIs(rs, levels);
  }

  datatype Certified = NoLevel | Level(name: string) | IndexError

  function Uncapped(rs: seq<TestResult>, levels: seq<string>): Certified {
    var n := Chain(rs, levels);
    if n == 0 then NoLevel else Level(levels[n - 1])
  }

  /** `list.index`, failing where Python raises ValueError. */
  function IndexOf(levels: seq<string>, level: string): (i: Option<nat>)
    ensures i.Some? <==> level in levels
    ensures i.Some? ==>
              i.value < |levels| && levels[i.value] == level && forall k | 0 <= k < i.value :: levels[k] != level
  {
    if levels == [] then None
    else if levels[0] == level then Some(0)
    else
      match IndexOf(levels[1..], level)
      case Some(i) => Some(i + 1)
      case None => None
  }

  function Clamp(levels: seq<string>, cap: Option<string>, highest: Certified): Certified {
    if !highest.Level? || cap.None? then highest
    else
      match (IndexOf(levels, cap.value), IndexOf(levels, highest.name))
      case (Some(c), Some(h)) => if c < h then Level(cap.value) else highest
      case _ => IndexError
  }

  /** `_highest_certified_level`. */
  function HighestCertified(rs: seq<TestResult>, levels: seq<string>, cap: Option<string>): Certified {
    Clamp(levels, cap, Uncapped(rs, levels))
  }

  method HighestCertifiedLevel(rs: seq<TestResult>, levels: seq<string>, cap: Option<string>) returns (r: Certified)
    ensures r == HighestCertified(rs, levels, cap)
  {
    var byLevel := GroupByLevel(rs);
    var highest := NoLevel;
    var n := 0;
    while n < |levels|
      invariant n <= |levels|
      invariant forall i | 0 <= i < n :: LevelPassed(rs, levels[i])
      invariant highest == if n == 0 then NoLevel else Level(levels[n - 1])
    {
      var level := levels[n];
      if level !in byLevel {
        break;
      }
      if exists i | 0 <= i < |byLevel[level]| :: byLevel[level][i] != PASSED {
        break;
      }
      highest := Level(level);
      n := n + 1;
    }
    ChainIsLongest(rs, levels, n);
    if highest.Level? && cap.Some? {
      var c, h := IndexOf(levels, cap.value), IndexOf(levels, highest.name);
      if c.None? || h.None? {
        return IndexError;
      }
      if c.value < h.value {
        return Level(cap.value);
      }
    }
    return highest;
  }

  // ── The JSON levels ───────────────────────────────────────────

  datatype LevelResult = LevelPass | LevelFail | LevelSkip

  function JsonLevel(rs: seq<TestResult>, level: string): LevelResult {
    if AtLevel(rs, level) == [] then LevelSkip
    else if AllPass(AtLevel(rs, level)) then LevelPass
    else LevelFail
  }

  function JsonLevels(rs: seq<TestResult>, levels: seq<string>): seq<LevelResult> {
    seq(|levels|, i requires 0 <= i < |levels| => JsonLevel(rs, levels[i]))
  }

  /** The level loop of `write_json`. */
  method WriteLevels(rs: seq<TestResult>, levels: seq<string>) returns (out: seq<LevelResult>)
    ensures out == JsonLevels(rs, levels)
  {
    var byLevel := GroupByLevel(rs);
    out := [];
    for i := 0 to |levels|
      invariant out == JsonLevels(rs, levels)[..i]
    {
      var trs := if levels[i] in byLevel then byLevel[levels[i]] else [];
      var result := if forall k | 0 <= k < |trs| :: trs[k] == PASSED then LevelPass else LevelFail;
      if trs == [] {
        result := LevelSkip;
      }
      assert trs == AtLevel(rs, levels[i]);
      assert result == JsonLevel(rs, levels[i]);
      out := out + [result];
    }
  }

  /** The uncapped certified level is the last of the longest run of `pass` at
      the start of the levels written to JSON. */
  lemma ChainMatchesJson(rs: seq<TestResult>, levels: seq<string>, n: nat)
    requires n <= |levels|
    ensures Chain(rs, levels) == n <==>
              var out := JsonLevels(rs, levels);
              && (forall i | 0 <= i < n :: out[i] == LevelPass)
              && (n < |levels| ==> out[n] != LevelPass)
  {
    ChainIs(rs, levels);
    var out := JsonLevels(rs, levels);
    if (forall i | 0 <= i < n :: out[i] == LevelPass) && (n < |levels| ==> out[n] != LevelPass) {
      assert forall i | 0 <= i < n :: LevelPassed(rs, levels[i]) by {
        assert forall i | 0 <= i < n :: out[i] == JsonLevel(rs, levels[i]);
      }
      ChainIsLongest(rs, levels, n);
    }
  }

  // ── Soundness ─────────────────────────────────────────────────

  /** The clamp never fails on a loaded manifest. */
  lemma IndexNeverFails(rs: seq<TestResult>, d: Definition)
    requires Loaded(d)
    ensures HighestCertified(rs, d.allLevels, d.cap) != IndexError
  {
  }

  lemma DistinctIndex(levels: seq<string>, i: nat)
    requires i < |levels|
    requires forall a, b | 0 <= a < b < |levels| :: levels[a] != levels[b]
    ensures IndexOf(levels, levels[i]) == Some(i)
  {
  }

  /** The index of the certified level is the chain's last index or the cap's,
      whichever is lower. */
  lemma CertifiedIndex(rs: seq<TestResult>, d: Definition)
    requires Loaded(d)
    ensures var n := Chain(rs, d.allLevels);
            var r := HighestCertified(rs, d.allLevels, d.cap);
            && (n == 0 <==> r == NoLevel)
            && (n > 0 ==>
                  && r.Level?
                  && IndexOf(d.allLevels, r.name) ==
                       if d.cap.Some? && IndexOf(d.allLevels, d.cap.value).value < n - 1
                       then IndexOf(d.allLevels, d.cap.value) else Some(n - 1))
  {
    LevelsAre(d.tests);
    var n := Chain(rs, d.allLevels);
    if n > 0 {
      DistinctIndex(d.allLevels, n - 1);
    }
  }

  /** A filtered run with results `rs` certifies `level`. */
  ghost predicate CertifiedUnder(d: Definition, levelFilters: seq<string>, rs: seq<TestResult>, level: string)
    requires Loaded(d)
  {
    FilterKeepsLevels(d, levelFilters);
    var f := FilterTests(d, levelFilters).value;
    ResultsOf(f.tests, rs) && HighestCertified(rs, f.allLevels, f.cap) == Level(level)
  }

  /** The n-th test of the manifest was selected, and its run passed. */
  predicate RanAndPassed(d: Definition, levelFilters: seq<string>, rs: seq<TestResult>, n: nat)
    requires n < |d.tests|
  {
    var j := KeptIndex(d.tests, levelFilters, n);
    && Kept(levelFilters, d.tests[n].level)
    && j < |rs| && rs[j].test == d.tests[n] && rs[j].result == PASSED
  }

  /** Soundness under filtering, for any results of the selected tests: when they
      certify a level, every test of the original manifest at every level up to
      and including it was selected and its own run passed, each of these levels
      has a test, and the level does not exceed the cap. */
  lemma CertifiedIsSound(d: Definition, levelFilters: seq<string>, rs: seq<TestResult>, level: string)
    requires Loaded(d) && CertifiedUnder(d, levelFilters, rs, level)
    ensures level in d.allLevels
    ensures var i := IndexOf(d.allLevels, level).value;
            && (forall n, k | 0 <= n < |d.tests| && 0 <= k <= i && d.tests[n].level == d.allLevels[k] ::
                  RanAndPassed(d, levelFilters, rs, n))
            && (forall k | 0 <= k <= i :: exists t :: t in d.tests && t.level == d.allLevels[k])
            && (d.cap.Some? ==> i <= IndexOf(d.allLevels, d.cap.value).value)
  {
    CertifiedHasIndex(d, levelFilters, rs, level);
    var i := IndexOf(d.allLevels, level).value;
    forall n, k | 0 <= n < |d.tests| && 0 <= k <= i && d.tests[n].level == d.allLevels[k]
      ensures RanAndPassed(d, levelFilters, rs, n)
    {
      TestPassed(d, levelFilters, rs, level, k, n);
    }
    LevelsAre(d.tests);
    forall k | 0 <= k <= i
      ensures exists t :: t in d.tests && t.level == d.allLevels[k]
    {
      assert d.allLevels[k] in LevelsOf(d.tests);
    }
  }

  lemma CertifiedHasIndex(d: Definition, levelFilters: seq<string>, rs: seq<TestResult>, level: string)
    requires Loaded(d) && CertifiedUnder(d, levelFilters, rs, level)
    ensures level in d.allLevels && IndexOf(d.allLevels, level).value < Chain(rs, d.allLevels)
    ensures d.cap.Some? ==> IndexOf(d.allLevels, level).value <= IndexOf(d.allLevels, d.cap.value).value
  {
    FilterKeepsLevels(d, levelFilters);
    CertifiedIndex(rs, d);
  }

  /** Each level up to the certified one was asked for, and all its runs passed. */
  lemma PassedUpTo(d: Definition, levelFilters: seq<string>, rs: seq<TestResult>, level: string, k: nat)
    requires Loaded(d) && CertifiedUnder(d, levelFilters, rs, level)
    requires level in d.allLevels && k <= IndexOf(d.allLevels, level).value
    ensures Kept(levelFilters, d.allLevels[k])
    ensures forall j | 0 <= j < |rs| && rs[j].test.level == d.allLevels[k] :: rs[j].result == PASSED
  {
    FilterKeepsLevels(d, levelFilters);
    CertifiedHasIndex(d, levelFilters, rs, level);
    ChainIs(rs, d.allLevels);
    LevelsNamed(d, k);
    AtLevelIs(rs, d.allLevels[k]);
    assert LevelPassed(rs, d.allLevels[k]);
    var j :| 0 <= j < |rs| && rs[j].test.level == d.allLevels[k];
    assert rs[j].test in FilterTests(d, levelFilters).value.tests;
  }

  lemma TestPassed(d: Definition, levelFilters: seq<string>, rs: seq<TestResult>, level: string, k: nat, n: nat)
    requires Loaded(d) && CertifiedUnder(d, levelFilters, rs, level)
    requires level in d.allLevels && k <= IndexOf(d.allLevels, level).value
    requires n < |d.tests| && d.tests[n].level == d.allLevels[k]
    ensures RanAndPassed(d, levelFilters, rs, n)
  {
    PassedUpTo(d, levelFilters, rs, level, k);
    KeptAt(d.tests, levelFilters, n);
    FilterKeepsLevels(d, levelFilters);
  }

  /** The test stands at or below the level. */
  predicate AtOrBelow(d: Definition, n: nat, level: string) {
    && n < |d.tests|
    && d.tests[n].level in d.allLevels && level in d.allLevels
    && IndexOf(d.allLevels, d.tests[n].level).value <= IndexOf(d.allLevels, level).value
  }

  /** From the command line to the certified level: every test at or below a
      level certified by the run of manifest `mv` is one that the given filters
      asked for, and it passed. */
  lemma CertifiedWasAskedFor(filters: seq<string>, mv: string, d: Definition, rs: seq<TestResult>, level: string,
                             n: nat)
    requires exists f :: f in filters && ManifestVersion(f) == mv
    requires Loaded(d) && CertifiedUnder(d, LevelFilters(filters, mv), rs, level)
    requires AtOrBelow(d, n, level)
    ensures Meant(filters, mv, d.tests[n].level)
    ensures RanAndPassed(d, LevelFilters(filters, mv), rs, n)
  {
    TestPassed(d, LevelFilters(filters, mv), rs, level, IndexOf(d.allLevels, d.tests[n].level).value, n);
    SelectionIsMeaning(filters, mv, d.tests[n].level);
  }

  // ── Filtering against the whole manifest ──────────────────────

  /** The results of the selected tests, given those of all tests. */
  function KeptResults(rs: seq<TestResult>, levelFilters: seq<string>): seq<TestResult> {
    if rs == [] then []
    else
      var n := |rs| - 1;
      KeptResults(rs[..n], levelFilters) + (if Kept(levelFilters, rs[n].test.level) then [rs[n]] else [])
  }

  lemma {:induction false} KeptResultsOf(tests: seq<TestDefinition>, rs: seq<TestResult>, levelFilters: seq<string>)
    requires ResultsOf(tests, rs)
    ensures ResultsOf(KeptTests(tests, levelFilters), KeptResults(rs, levelFilters))
  {
    if tests != [] {
      KeptResultsOf(tests[..|tests| - 1], rs[..|rs| - 1], levelFilters);
    }
  }

  lemma {:induction false} KeptLevel(rs: seq<TestResult>, levelFilters: seq<string>, level: string)
    requires Kept(levelFilters, level)
    ensures AtLevel(KeptResults(rs, levelFilters), level) == AtLevel(rs, level)
  {
    if rs != [] {
      var n := |rs| - 1;
      KeptLevel(rs[..n], levelFilters, level);
      if Kept(levelFilters, rs[n].test.level) {
        var kept := KeptResults(rs, levelFilters);
        assert kept[..|kept| - 1] == KeptResults(rs[..n], levelFilters);
      } else {
        assert KeptResults(rs, levelFilters) == KeptResults(rs[..n], levelFilters);
      }
    }
  }

  /** A filtered run never certifies more than the whole manifest would, when
      every selected test has the result that it has in the whole run. */
  lemma FilteringNeverHelps(d: Definition, levelFilters: seq<string>, all: seq<TestResult>, level: string)
    requires Loaded(d) && ResultsOf(d.tests, all)
    requires HighestCertified(KeptResults(all, levelFilters), d.allLevels, d.cap) == Level(level)
    ensures CertifiedUnder(d, levelFilters, KeptResults(all, levelFilters), level)
    ensures var whole := HighestCertified(all, d.allLevels, d.cap);
            && whole.Level?
            && level in d.allLevels && whole.name in d.allLevels
            && IndexOf(d.allLevels, level).value <= IndexOf(d.allLevels, whole.name).value
  {
    var rs := KeptResults(all, levelFilters);
    KeptResultsOf(d.tests, all, levelFilters);
    FilterKeepsLevels(d, levelFilters);
    CertifiedHasIndex(d, levelFilters, rs, level);
    ChainIs(rs, d.allLevels);
    var i := IndexOf(d.allLevels, level).value;
    forall k | 0 <= k <= i
      ensures LevelPassed(all, d.allLevels[k])
    {
      assert LevelPassed(rs, d.allLevels[k]);
      PassedUpTo(d, levelFilters, rs, level, k);
      KeptLevel(all, levelFilters, d.allLevels[k]);
    }
    ChainIs(all, d.allLevels);
    CertifiedIndex(all, d);
  }

  /** An unfiltered run whose overall result is `pass` certifies exactly the
      last level, or the cap if that is lower; nothing if there are no levels. */
  lemma PassCertifiesAll(d: Definition, rs: seq<TestResult>)
    requires Loaded(d) && ResultsOf(d.tests, rs) && Fold(rs) == PASSED
    ensures var r := HighestCertified(rs, d.allLevels, d.cap);
            var last := |d.allLevels| - 1;
            if d.allLevels == [] then r == NoLevel
            else
              && r.Level?
              && IndexOf(d.allLevels, r.name) ==
                   if d.cap.Some? && IndexOf(d.allLevels, d.cap.value).value < last
                   then IndexOf(d.allLevels, d.cap.value) else Some(last)
  {
    FoldIsWorst(rs);
    LevelsAre(d.tests);
    forall k | 0 <= k < |d.allLevels|
      ensures LevelPassed(rs, d.allLevels[k])
    {
      assert d.allLevels[k] in LevelsOf(d.tests);
      AtLevelIs(rs, d.allLevels[k]);
      var t :| t in d.tests && t.level == d.allLevels[k];
      var i :| 0 <= i < |d.tests| && d.tests[i] == t;
      assert rs[i].test.level == d.allLevels[k];
    }
    ChainIsLongest(rs, d.allLevels, |d.allLevels|);
    CertifiedIndex(rs, d);
  }
}
