/** From version filters to manifests: which manifests a run enters, and which
    of their tests it selects. */
module Certification {
  import opened Prelude

  // ── Version filters ───────────────────────────────────────────

  /** The non-empty stripped parts. */
  function Clean(parts: seq<string>): seq<string> {
    if parts == [] then []
    else (if Strip(parts[0]) != "" then [Strip(parts[0])] else []) + Clean(parts[1..])
  }

  function Filters(entries: seq<string>): seq<string> {
    if entries == [] then [] else Clean(SplitOn(entries[0], ',')) + Filters(entries[1..])
  }

  lemma {:induction false} CleanConcat(a: seq<string>, b: seq<string>)
    ensures Clean(a + b) == Clean(a) + Clean(b)
  {
    if a == [] {
      assert a + b == b;
    } else {
      assert (a + b)[1..] == a[1..] + b;
      CleanConcat(a[1..], b);
    }
  }

  lemma {:induction false} FiltersConcat(a: seq<string>, b: seq<string>)
    ensures Filters(a + b) == Filters(a) + Filters(b)
  {
    if a == [] {
      assert a + b == b;
    } else {
      assert (a + b)[1..] == a[1..] + b;
      FiltersConcat(a[1..], b);
    }
  }

  /** `_parse_version_filters`. */
  method ParseVersionFilters(entries: seq<string>) returns (filters: seq<string>)
    ensures filters == Filters(entries)
  {
    filters := [];
    for i := 0 to |entries|
      invariant filters == Filters(entries[..i])
    {
      filters := AddParts(filters, SplitOn(entries[i], ','));
      FiltersConcat(entries[..i], [entries[i]]);
      assert entries[..i + 1] == entries[..i] + [entries[i]];
      assert [entries[i]][1..] == [];
    }
    assert entries[..|entries|] == entries;
  }

  /** The inner loop: strip each part and drop the empty ones. */
  method AddParts(before: seq<string>, parts: seq<string>) returns (filters: seq<string>)
    ensures filters == before + Clean(parts)
  {
    filters := before;
    for j := 0 to |parts|
      invariant filters == before + Clean(parts[..j])
    {
      var part := Strip(parts[j]);
      if part != "" {
        filters := filters + [part];
      }
      CleanConcat(parts[..j], [parts[j]]);
      assert parts[..j + 1] == parts[..j] + [parts[j]];
      assert [parts[j]][1..] == [];
    }
    assert parts[..|parts|] == parts;
  }

  lemma {:induction false} SplitAtComma(a: string, b: string)
    ensures SplitOn(a + "," + b, ',') == SplitOn(a, ',') + SplitOn(b, ',')
  {
    if a == "" {
      assert a + "," + b == "," + b && ("," + b)[1..] == b;
    } else {
      assert (a + "," + b)[1..] == a[1..] + "," + b;
      SplitAtComma(a[1..], b);
    }
  }

  lemma FiltersOfOne(entry: string)
    ensures Filters([entry]) == Clean(SplitOn(entry, ','))
  {
  }

  lemma CommaIsTwoEntries(a: string, b: string)
    ensures Filters([a + "," + b]) == Filters([a, b])
  {
    SplitAtComma(a, b);
    CleanConcat(SplitOn(a, ','), SplitOn(b, ','));
    FiltersOfOne(a + "," + b);
    FiltersOfOne(a);
    FiltersOfOne(b);
    FiltersConcat([a], [b]);
    assert [a] + [b] == [a, b];
  }

  /** A comma-separated list and repeated flags mean the same. */
  lemma CommaIsRepetition(pre: seq<string>, a: string, b: string, post: seq<string>)
    ensures Filters(pre + [a + "," + b] + post) == Filters(pre + [a, b] + post)
  {
    CommaIsTwoEntries(a, b);
    FiltersConcat(pre, [a + "," + b]);
    FiltersConcat(pre + [a + "," + b], post);
    FiltersConcat(pre, [a, b]);
    FiltersConcat(pre + [a, b], post);
  }

  /** `_manifest_version`: the first two components. */
  function ManifestVersion(f: string): string {
    var parts := SplitOn(f, '.');
    if |parts| == 1 then parts[0] else parts[0] + "." + parts[1]
  }

  lemma {:induction false} SplitPartsClean(s: string, sep: char)
    ensures forall i | 0 <= i < |SplitOn(s, sep)| :: sep !in SplitOn(s, sep)[i]
  {
    if s != [] {
      SplitPartsClean(s[1..], sep);
    }
  }

  lemma ManifestVersionIdempotent(f: string)
    ensures ManifestVersion(ManifestVersion(f)) == ManifestVersion(f)
  {
    var parts := SplitOn(f, '.');
    SplitPartsClean(f, '.');
    SplitOnNone(parts[0], '.');
    if |parts| > 1 {
      SplitOnNone(parts[1], '.');
      SplitOnHead(parts[0], '.', parts[1]);
    }
  }

  /** `_matches_level`. */
  predicate MatchesLevel(level: string, f: string) {
    level != "" && (f == level || ('-' !in f && f + "-" <= level))
  }

  // ── Which manifests run ───────────────────────────────────────

  function Dedup(xs: seq<string>): seq<string> {
    if xs == [] then []
    else
      var init := Dedup(xs[..|xs| - 1]);
      var last := xs[|xs| - 1];
      if last in init then init else init + [last]
  }

  lemma {:induction false} DedupIs(xs: seq<string>)
    ensures forall x :: x in Dedup(xs) <==> x in xs
    ensures forall i, j | 0 <= i < j < |Dedup(xs)| :: Dedup(xs)[i] != Dedup(xs)[j]
  {
    if xs != [] {
      var n := |xs| - 1;
      DedupIs(xs[..n]);
      assert xs == xs[..n] + [xs[n]];
    }
  }

  /** Where `x` first occurs. */
  function FirstAt(xs: seq<string>, x: string): (i: nat)
    requires x in xs
    ensures i < |xs| && xs[i] == x && forall k | 0 <= k < i :: xs[k] != x
  {
    if xs[0] == x then 0 else 1 + FirstAt(xs[1..], x)
  }

  lemma {:induction false} FirstAtPrefix(xs: seq<string>, n: nat, x: string)
    requires n <= |xs| && x in xs[..n]
    ensures x in xs && FirstAt(xs, x) == FirstAt(xs[..n], x)
  {
  }

  /** Duplicates are dropped in favour of the first mention. */
  lemma {:induction false} DedupOrder(xs: seq<string>, i: nat, j: nat)
    requires i < j < |Dedup(xs)|
    ensures Dedup(xs)[i] in xs && Dedup(xs)[j] in xs
    ensures FirstAt(xs, Dedup(xs)[i]) < FirstAt(xs, Dedup(xs)[j])
  {
    DedupIs(xs);
    var n := |xs| - 1;
    var a, b := Dedup(xs)[i], Dedup(xs)[j];
    DedupIs(xs[..n]);
    assert a in Dedup(xs) && b in Dedup(xs);
    assert a == Dedup(xs[..n])[i];
    assert a in Dedup(xs[..n]);
    FirstAtPrefix(xs, n, a);
    if j < |Dedup(xs[..n])| {
      DedupOrder(xs[..n], i, j);
      assert b == Dedup(xs[..n])[j] && b in Dedup(xs[..n]);
      FirstAtPrefix(xs, n, b);
    } else {
      assert b == xs[n] && b !in xs[..n];
      assert FirstAt(xs, b) >= n;
    }
  }

  function Versions(filters: seq<string>): seq<string> {
    seq(|filters|, i requires 0 <= i < |filters| => ManifestVersion(filters[i]))
  }

  function Specific(filters: seq<string>, mv: string): seq<string> {
    if filters == [] then []
    else
      var last := filters[|filters| - 1];
      var init := Specific(filters[..|filters| - 1], mv);
      if ManifestVersion(last) == mv && last != mv then init + [last] else init
  }

  lemma {:induction false} SpecificIs(filters: seq<string>, mv: string)
    ensures forall f :: f in Specific(filters, mv) <==> f in filters && ManifestVersion(f) == mv && f != mv
  {
    if filters != [] {
      var n := |filters| - 1;
      SpecificIs(filters[..n], mv);
      assert filters == filters[..n] + [filters[n]];
    }
  }

  function ReplaceDots(s: string): (r: string)
    ensures |r| == |s| && forall i | 0 <= i < |s| :: r[i] == if s[i] == '.' then '_' else s[i]
  {
    if s == "" then "" else [if s[0] == '.' then '_' else s[0]] + ReplaceDots(s[1..])
  }

  /** A path below the directory of manifests, as its segments. */
  type Path = seq<string>

  /** The segments pathlib keeps of a relative path: empty ones are dropped. (It
      also drops ".", which cannot occur here, since dots are replaced.) */
  function Segments(s: string): (p: Path)
    ensures s != "" && s[0] != '/' ==> p != []
  {
    if s == "" then []
    else if s[0] == '/' then Segments(s[1..])
    else if |s| == 1 || s[1] == '/' then [[s[0]]] + Segments(s[1..])
    else
      var rest := Segments(s[1..]);
      [[s[0]] + rest[0]] + rest[1..]
  }

  /** The folder of a manifest version. */
  function Folder(mv: string): Path {
    Segments("c" + ReplaceDots(mv))
  }

  datatype Entry = Entry(folder: Path, levelFilters: seq<string>)

  /** `[]` stands for the whole manifest. */
  function LevelFilters(filters: seq<string>, mv: string): seq<string> {
    if mv in filters then [] else Specific(filters, mv)
  }

  function EntriesOf(mvs: seq<string>, filters: seq<string>, present: set<Path>): seq<Entry> {
    if mvs == [] then []
    else
      var n := |mvs| - 1;
      EntriesOf(mvs[..n], filters, present)
      + (if Folder(mvs[n]) in present then [Entry(Folder(mvs[n]), LevelFilters(filters, mvs[n]))] else [])
  }

  function Whole(folders: seq<Path>): seq<Entry> {
    seq(|folders|, i requires 0 <= i < |folders| => Entry(folders[i], []))
  }

  /** What `discover_manifests` returns, given the manifests that exist and
      their folders in sorted order. */
  function Discovered(filters: seq<string>, present: set<Path>, sorted: seq<Path>): seq<Entry> {
    if filters == [] then Whole(sorted) else EntriesOf(Dedup(Versions(filters)), filters, present)
  }

  lemma VersionsNext(filters: seq<string>, i: nat)
    requires i < |filters|
    ensures var mv := ManifestVersion(filters[i]);
            && filters[..i + 1] == filters[..i] + [filters[i]]
            && Dedup(Versions(filters[..i + 1])) ==
                 (if mv in Dedup(Versions(filters[..i])) then Dedup(Versions(filters[..i]))
                  else Dedup(Versions(filters[..i])) + [mv])
  {
    assert filters[..i + 1][..i] == filters[..i];
    assert Versions(filters[..i + 1])[..i] == Versions(filters[..i]);
    assert Versions(filters[..i + 1])[i] == ManifestVersion(filters[i]);
  }

  lemma SpecificNext(filters: seq<string>, i: nat, v: string)
    requires i < |filters|
    ensures Specific(filters[..i + 1], v) ==
              if ManifestVersion(filters[i]) == v && filters[i] != v then Specific(filters[..i], v) + [filters[i]]
              else Specific(filters[..i], v)
  {
    assert filters[..i + 1][..i] == filters[..i];
  }

  ghost predicate Bare(filters: seq<string>, runAll: set<string>) {
    forall mv :: mv in runAll <==> mv in filters && ManifestVersion(mv) == mv
  }

  ghost predicate Grouped(filters: seq<string>, perManifest: map<string, seq<string>>) {
    && (forall mv :: mv in perManifest <==> Specific(filters, mv) != [])
    && (forall mv :: mv in perManifest ==> perManifest[mv] == Specific(filters, mv))
  }

  lemma BareNext(filters: seq<string>, i: nat, runAll: set<string>)
    requires i < |filters| && Bare(filters[..i], runAll)
    ensures var mv := ManifestVersion(filters[i]);
            Bare(filters[..i + 1], if filters[i] == mv then runAll + {mv} else runAll)
  {
  }

  lemma GroupedNext(filters: seq<string>, i: nat, perManifest: map<string, seq<string>>)
    requires i < |filters| && Grouped(filters[..i], perManifest)
    ensures var mv := ManifestVersion(filters[i]);
            var group := if mv in perManifest then perManifest[mv] else [];
            Grouped(filters[..i + 1], if filters[i] == mv then perManifest else perManifest[mv := group + [filters[i]]])
  {
    var mv := ManifestVersion(filters[i]);
    var group := if mv in perManifest then perManifest[mv] else [];
    var next := if filters[i] == mv then perManifest else perManifest[mv := group + [filters[i]]];
    forall v
      ensures v in next <==> Specific(filters[..i + 1], v) != []
      ensures v in next ==> next[v] == Specific(filters[..i + 1], v)
    {
      SpecificNext(filters, i, v);
    }
  }

  /** The first loop: bare versions, level filters by version, and the versions
      in the order in which they are first mentioned. */
  method GroupFilters(filters: seq<string>)
    returns (runAll: set<string>, perManifest: map<string, seq<string>>, mentioned: seq<string>)
    ensures Bare(filters, runAll)
    ensures Grouped(filters, perManifest)
    ensures mentioned == Dedup(Versions(filters))
  {
    runAll, perManifest, mentioned := {}, map[], [];
    for i := 0 to |filters|
      invariant Bare(filters[..i], runAll)
      invariant Grouped(filters[..i], perManifest)
      invariant mentioned == Dedup(Versions(filters[..i]))
    {
      VersionsNext(filters, i);
      BareNext(filters, i, runAll);
      GroupedNext(filters, i, perManifest);
      var mv := ManifestVersion(filters[i]);
      if filters[i] == mv {
        runAll := runAll + {mv};
      } else {
        var group := if mv in perManifest then perManifest[mv] else [];
        perManifest := perManifest[mv := group + [filters[i]]];
      }
      if mv !in mentioned {
        mentioned := mentioned + [mv];
      }
    }
    assert filters[..|filters|] == filters;
  }

  /** `discover_manifests`. */
  method DiscoverManifests(filters: seq<string>, present: set<Path>, sorted: seq<Path>) returns (results: seq<Entry>)
    ensures results == Discovered(filters, present, sorted)
  {
    if filters == [] {
      return Whole(sorted);
    }
    var runAll, perManifest, mentioned := GroupFilters(filters);
    results := [];
    for k := 0 to |mentioned|
      invariant results == EntriesOf(mentioned[..k], filters, present)
    {
      var mv := mentioned[k];
      assert mentioned[..k + 1][..k] == mentioned[..k];
      MentionedIsVersion(filters, mv);
      if Folder(mv) in present {
        if mv in runAll {
          results := results + [Entry(Folder(mv), [])];
        } else {
          results := results + [Entry(Folder(mv), if mv in perManifest then perManifest[mv] else [])];
        }
      }
    }
    assert mentioned[..|mentioned|] == mentioned;
  }

  lemma MentionedIsVersion(filters: seq<string>, mv: string)
    requires mv in Dedup(Versions(filters))
    ensures ManifestVersion(mv) == mv
    ensures exists f :: f in filters && ManifestVersion(f) == mv
  {
    DedupIs(Versions(filters));
    var i :| 0 <= i < |filters| && Versions(filters)[i] == mv;
    assert filters[i] in filters;
    ManifestVersionIdempotent(filters[i]);
  }

  /** What a version filter means for a test of manifest `mv`. */
  ghost predicate Meant(filters: seq<string>, mv: string, level: string) {
    exists f :: f in filters && ManifestVersion(f) == mv && (f == mv || MatchesLevel(level, f))
  }

  predicate Kept(levelFilters: seq<string>, level: string) {
    levelFilters == [] || exists i :: 0 <= i < |levelFilters| && MatchesLevel(level, levelFilters[i])
  }

  /** The filters handed to a manifest select exactly the tests that are meant;
      the empty list, which stands for everything, is handed over exactly when
      the bare version was asked for. */
  lemma SelectionIsMeaning(filters: seq<string>, mv: string, level: string)
    requires exists f :: f in filters && ManifestVersion(f) == mv
    ensures Kept(LevelFilters(filters, mv), level) <==> Meant(filters, mv, level)
    ensures LevelFilters(filters, mv) == [] <==> mv in filters
  {
    SpecificIs(filters, mv);
    var f :| f in filters && ManifestVersion(f) == mv;
    ManifestVersionIdempotent(f);
    if mv in filters {
      assert Meant(filters, mv, level);
    } else {
      var s := Specific(filters, mv);
      assert f in s;
      if Kept(s, level) {
        var i :| 0 <= i < |s| && MatchesLevel(level, s[i]);
        assert s[i] in s;
        assert Meant(filters, mv, level);
      }
      if Meant(filters, mv, level) {
        var g :| g in filters && ManifestVersion(g) == mv && (g == mv || MatchesLevel(level, g));
        assert g in s;
      }
    }
  }

  lemma {:induction false} EntriesAre(mvs: seq<string>, filters: seq<string>, present: set<Path>)
    ensures forall e :: e in EntriesOf(mvs, filters, present) <==>
              exists k :: 0 <= k < |mvs| && Folder(mvs[k]) in present
                  && e == Entry(Folder(mvs[k]), LevelFilters(filters, mvs[k]))
  {
    if mvs != [] {
      var n := |mvs| - 1;
      EntriesAre(mvs[..n], filters, present);
      assert forall k | 0 <= k < n :: mvs[..n][k] == mvs[k];
      assert EntriesOf(mvs, filters, present) == EntriesOf(mvs[..n], filters, present)
             + (if Folder(mvs[n]) in present then [Entry(Folder(mvs[n]), LevelFilters(filters, mvs[n]))] else []);
    }
  }

  /** The manifests that run, and what is selected in them, depend only on the
      set of filters: not on their order and not on repetitions. */
  lemma OrderAndRepetitionImmaterial(a: seq<string>, b: seq<string>, present: set<Path>, mv: string, level: string)
    requires forall f :: f in a <==> f in b
    ensures mv in Dedup(Versions(a)) <==> mv in Dedup(Versions(b))
    ensures mv in Dedup(Versions(a)) ==>
              (Kept(LevelFilters(a, mv), level) <==> Kept(LevelFilters(b, mv), level))
  {
    VersionsMention(a, mv);
    VersionsMention(b, mv);
    if mv in Dedup(Versions(a)) {
      SelectionIsMeaning(a, mv, level);
      SelectionIsMeaning(b, mv, level);
    }
  }

  lemma VersionsMention(filters: seq<string>, mv: string)
    ensures mv in Dedup(Versions(filters)) <==> exists f :: f in filters && ManifestVersion(f) == mv
  {
    DedupIs(Versions(filters));
    if f :| f in filters && ManifestVersion(f) == mv {
      var i :| 0 <= i < |filters| && filters[i] == f;
      assert Versions(filters)[i] == mv;
    }
    if mv in Dedup(Versions(filters)) {
      MentionedIsVersion(filters, mv);
    }
  }

  // ── Versions that share a folder ──────────────────────────────

  /** Without the slashes that are followed by a slash or by nothing. */
  function Squeeze(s: string): string {
    if s == "" then ""
    else if s[0] == '/' && (|s| == 1 || s[1] == '/') then Squeeze(s[1..])
    else [s[0]] + Squeeze(s[1..])
  }

  /** Equal but for '.' against '_'. */
  predicate Alike(a: string, b: string) {
    |a| == |b| && forall i | 0 <= i < |a| :: a[i] == b[i] || {a[i], b[i]} == {'.', '_'}
  }

  /** Two version strings that name one folder: equal but for '.' against '_',
      for repeated slashes, and for slashes at the end. */
  predicate SameFolder(a: string, b: string) {
    Alike(Squeeze(a), Squeeze(b))
  }

  function JoinSlash(p: Path): string {
    if p == [] then "" else if |p| == 1 then p[0] else p[0] + "/" + JoinSlash(p[1..])
  }

  lemma {:induction false} SegmentsOfSqueeze(s: string)
    ensures Segments(Squeeze(s)) == Segments(s)
    ensures s != "" && s[0] != '/' ==> Squeeze(s) != "" && Squeeze(s)[0] == s[0]
    ensures s == "" ==> Squeeze(s) == ""
    ensures s != "" && s[0] == '/' ==>
              Squeeze(s) == "" || (Squeeze(s)[0] == '/' && |Squeeze(s)| > 1 && Squeeze(s)[1] != '/')
  {
    if s != "" {
      SegmentsOfSqueeze(s[1..]);
      if !(s[0] == '/' && (|s| == 1 || s[1] == '/')) {
        assert ([s[0]] + Squeeze(s[1..]))[1..] == Squeeze(s[1..]);
      }
    }
  }

  lemma {:induction false} SqueezeIs(s: string)
    ensures s != "" && s[0] != '/' ==> Squeeze(s) == JoinSlash(Segments(s))
    ensures s != "" && s[0] == '/' ==> Squeeze(s) == if Segments(s) == [] then "" else "/" + JoinSlash(Segments(s))
  {
    if s != "" {
      SqueezeIs(s[1..]);
      if s[0] != '/' {
        if |s| == 1 || s[1] == '/' {
          JoinSlashFirst([s[0]], Segments(s[1..]));
        } else {
          JoinGrown(s[0], Segments(s[1..]));
        }
      }
    }
  }

  lemma JoinGrown(c: char, p: Path)
    requires p != []
    ensures JoinSlash([[c] + p[0]] + p[1..]) == [c] + JoinSlash(p)
  {
    var rest := p[1..];
    JoinSlashFirst([c] + p[0], rest);
    JoinSlashFirst(p[0], rest);
    assert [p[0]] + rest == p;
    if rest != [] {
      Regroup([c], p[0], "/" + JoinSlash(rest));
    }
  }

  lemma Regroup(a: string, b: string, c: string)
    ensures (a + b) + c == a + (b + c)
  {
  }

  lemma JoinSlashFirst(name: string, p: Path)
    ensures JoinSlash([name] + p) == if p == [] then name else name + ("/" + JoinSlash(p))
  {
    assert ([name] + p)[1..] == p;
    assert name + "/" + JoinSlash(p) == name + ("/" + JoinSlash(p));
  }

  lemma {:induction false} SqueezeReplaced(s: string)
    ensures Squeeze(ReplaceDots(s)) == ReplaceDots(Squeeze(s))
  {
    if s != "" {
      SqueezeReplaced(s[1..]);
      assert ReplaceDots(s)[1..] == ReplaceDots(s[1..]);
      assert ReplaceDots([s[0]] + Squeeze(s[1..])) == [ReplaceDots(s)[0]] + ReplaceDots(Squeeze(s[1..])) by {
        assert ([s[0]] + Squeeze(s[1..]))[1..] == Squeeze(s[1..]);
      }
    }
  }

  lemma AlikeIsReplaced(a: string, b: string)
    ensures Alike(a, b) <==> ReplaceDots(a) == ReplaceDots(b)
  {
    if ReplaceDots(a) == ReplaceDots(b) {
      forall i | 0 <= i < |a|
        ensures a[i] == b[i] || {a[i], b[i]} == {'.', '_'}
      {
        assert ReplaceDots(a)[i] == ReplaceDots(b)[i];
      }
    }
    if Alike(a, b) {
      forall i | 0 <= i < |a|
        ensures ReplaceDots(a)[i] == ReplaceDots(b)[i]
      {
        if a[i] != b[i] {
          assert a[i] in {'.', '_'} && b[i] in {'.', '_'};
        }
      }
    }
  }

  /** Paths that start with a name are one path iff they squeeze to one text. */
  lemma OnePath(a: string, b: string)
    requires a != "" && a[0] != '/' && b != "" && b[0] != '/'
    ensures Segments(a) == Segments(b) <==> Squeeze(a) == Squeeze(b)
  {
    SqueezeIs(a);
    SqueezeIs(b);
    SegmentsOfSqueeze(a);
    SegmentsOfSqueeze(b);
  }

  lemma SqueezeAfterName(c: char, s: string)
    requires c != '/'
    ensures Squeeze([c] + s) == [c] + Squeeze(s)
  {
    assert ([c] + s)[1..] == s;
  }

  lemma FolderCollides(a: string, b: string)
    ensures Folder(a) == Folder(b) <==> SameFolder(a, b)
  {
    var x, y := ReplaceDots(a), ReplaceDots(b);
    OnePath("c" + x, "c" + y);
    SqueezeAfterName('c', x);
    SqueezeAfterName('c', y);
    assert "c" + Squeeze(x) == "c" + Squeeze(y) ==> Squeeze(x) == Squeeze(y) by {
      assert ("c" + Squeeze(x))[1..] == Squeeze(x) && ("c" + Squeeze(y))[1..] == Squeeze(y);
    }
    SqueezeReplaced(a);
    SqueezeReplaced(b);
    AlikeIsReplaced(Squeeze(a), Squeeze(b));
  }

  ghost predicate FoldersDistinct(es: seq<Entry>) {
    forall i, j | 0 <= i < j < |es| :: es[i].folder != es[j].folder
  }

  ghost predicate SpelledApart(mvs: seq<string>, present: set<Path>) {
    forall i, j | 0 <= i < j < |mvs| :: Folder(mvs[i]) in present ==> !SameFolder(mvs[i], mvs[j])
  }

  ghost predicate HasFolder(es: seq<Entry>, folder: Path) {
    exists p :: 0 <= p < |es| && es[p].folder == folder
  }

  lemma AddEntry(es: seq<Entry>, e: Entry)
    ensures FoldersDistinct(es + [e]) <==> FoldersDistinct(es) && !HasFolder(es, e.folder)
  {
    var all := es + [e];
    assert all[|es|] == e;
    assert forall p | 0 <= p < |es| :: all[p] == es[p];
  }

  /** A version listed before `mv`, with a manifest, shares its folder. */
  ghost predicate Clashes(mvs: seq<string>, present: set<Path>, mv: string) {
    exists i :: 0 <= i < |mvs| && Folder(mvs[i]) in present && SameFolder(mvs[i], mv)
  }

  lemma AddVersion(mvs: seq<string>, present: set<Path>, mv: string)
    ensures SpelledApart(mvs + [mv], present) <==> SpelledApart(mvs, present) && !Clashes(mvs, present, mv)
  {
    var all := mvs + [mv];
    assert all[|mvs|] == mv;
    assert forall p | 0 <= p < |mvs| :: all[p] == mvs[p];
  }

  lemma ClashIsFolder(mvs: seq<string>, filters: seq<string>, present: set<Path>, mv: string)
    ensures Clashes(mvs, present, mv) <==>
              Folder(mv) in present && HasFolder(EntriesOf(mvs, filters, present), Folder(mv))
  {
    var es := EntriesOf(mvs, filters, present);
    EntriesAre(mvs, filters, present);
    if i :| 0 <= i < |mvs| && Folder(mvs[i]) in present && SameFolder(mvs[i], mv) {
      FolderCollides(mvs[i], mv);
      var e := Entry(Folder(mvs[i]), LevelFilters(filters, mvs[i]));
      assert e in es;
    }
    if p :| 0 <= p < |es| && es[p].folder == Folder(mv) {
      assert es[p] in es;
      var k :| 0 <= k < |mvs| && Folder(mvs[k]) in present
          && es[p] == Entry(Folder(mvs[k]), LevelFilters(filters, mvs[k]));
      FolderCollides(mvs[k], mv);
    }
  }

  /** No manifest runs twice exactly when no two of the versions asked for, with
      a manifest, name one folder ("3.0", "3_0" and "3.0/" do). */
  lemma {:induction false} EachManifestOnce(mvs: seq<string>, filters: seq<string>, present: set<Path>)
    ensures FoldersDistinct(EntriesOf(mvs, filters, present)) <==> SpelledApart(mvs, present)
  {
    if mvs != [] {
      var n := |mvs| - 1;
      var init, mv := mvs[..n], mvs[n];
      assert mvs == init + [mv];
      EachManifestOnce(init, filters, present);
      AddVersion(init, present, mv);
      AddEntry(EntriesOf(init, filters, present), Entry(Folder(mv), LevelFilters(filters, mv)));
      ClashIsFolder(init, filters, present, mv);
      assert Folder(mv) !in present ==> EntriesOf(mvs, filters, present) == EntriesOf(init, filters, present);
    }
  }

  lemma ManifestsOnce(filters: seq<string>, present: set<Path>, sorted: seq<Path>)
    requires filters != []
    ensures var mvs := Dedup(Versions(filters));
            FoldersDistinct(Discovered(filters, present, sorted)) <==>
              SpelledApart(mvs, present)
  {
    EachManifestOnce(Dedup(Versions(filters)), filters, present);
  }

  /** Asking for "3.0" and for another spelling of it runs its manifest twice. */
  lemma ManifestTwice(other: string)
    requires other in {"3_0", "3.0/"}
    ensures !FoldersDistinct(Discovered(["3.0", other], {["c3_0"]}, []))
  {
    var filters := ["3.0", other];
    VersionsOfSpellings();
    assert Versions(filters)[0] == "3.0" && Versions(filters)[1] == other;
    BothMentioned(Versions(filters), "3.0", other);
    SpellingsAlike();
    var mvs := Dedup(Versions(filters));
    var i :| 0 <= i < |mvs| && mvs[i] == "3.0";
    var j :| 0 <= j < |mvs| && mvs[j] == other;
    FolderCollides("3.0", other);
    FolderOfSpelling();
    ManifestsOnce(filters, {["c3_0"]}, []);
  }

  lemma VersionsOfSpellings()
    ensures ManifestVersion("3.0") == "3.0" && ManifestVersion("3_0") == "3_0" && ManifestVersion("3.0/") == "3.0/"
  {
    SplitOnHead("3", '.', "0");
    SplitOnHead("3", '.', "0/");
    SplitOnNone("0", '.');
    SplitOnNone("0/", '.');
    SplitOnNone("3_0", '.');
    assert "3" + ['.'] + "0" == "3.0" && "3" + ['.'] + "0/" == "3.0/";
    assert "3" + "." + "0" == "3.0" && "3" + "." + "0/" == "3.0/";
  }

  lemma BothMentioned(vs: seq<string>, a: string, b: string)
    requires |vs| == 2 && vs[0] == a && vs[1] == b
    ensures a in Dedup(vs) && b in Dedup(vs)
  {
  }

  lemma {:induction false} SqueezeNoSlash(s: string)
    requires '/' !in s
    ensures Squeeze(s) == s && Squeeze(s + "/") == s
  {
    if s != "" {
      SqueezeNoSlash(s[1..]);
      assert (s + "/")[1..] == s[1..] + "/";
      assert [s[0]] + s[1..] == s;
    }
  }

  lemma SpellingsAlike()
    ensures SameFolder("3.0", "3_0") && SameFolder("3_0", "3.0")
    ensures SameFolder("3.0", "3.0/") && SameFolder("3.0/", "3.0")
  {
    SqueezeNoSlash("3.0");
    SqueezeNoSlash("3_0");
    assert "3.0" + "/" == "3.0/";
  }

  lemma FolderOfSpelling()
    ensures Folder("3.0") == ["c3_0"]
  {
    var r := ReplaceDots("3.0");
    assert r[0] == '3' && r[1] == '_' && r[2] == '0';
    assert "c" + r == "c3_0";
    assert Segments("c3_0") == ["c3_0"] by {
      assert "c3_0"[1..] == "3_0" && "3_0"[1..] == "_0" && "_0"[1..] == "0";
    }
  }
}
