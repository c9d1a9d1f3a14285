/** The TCB listings printed by `snphost show tcb` and `snpguest display report`
    and the line-by-line parser that reads them back. */
module TcbText {
  import opened Prelude

  type Fields = map<string, string>
  type Sections = map<string, Fields>

  // ── Lines ─────────────────────────────────────────────────────

  /** Python's `str.splitlines()`, with `acc` the line read so far. */
  function LinesFrom(acc: string, s: string): seq<string>
    decreases |s|
  {
    if s == [] then
      if acc == [] then [] else [acc]
    else if IsLineBreak(s[0]) then
      [acc] + LinesFrom([], s[if |s| > 1 && s[0] == '\r' && s[1] == '\n' then 2 else 1..])
    else
      LinesFrom(acc + [s[0]], s[1..])
  }

  function SplitLines(s: string): seq<string> {
    LinesFrom([], s)
  }

  predicate OneLine(s: string) {
    forall c <- s :: !IsLineBreak(c)
  }

  lemma {:induction false} FirstLine(acc: string, a: string, rest: string)
    requires OneLine(a)
    ensures LinesFrom(acc, a + "\n" + rest) == [acc + a] + LinesFrom([], rest)
    decreases |a|
  {
    var s := a + "\n" + rest;
    if a == [] {
      assert s == "\n" + rest;
      assert s[1..] == rest;
      assert acc + a == acc;
    } else {
      assert s[0] == a[0] && s[1..] == a[1..] + "\n" + rest;
      FirstLine(acc + [a[0]], a[1..], rest);
      assert acc + [a[0]] + a[1..] == acc + a;
    }
  }

  // ── The two patterns ──────────────────────────────────────────

  /** `\w`, over ASCII. */
  predicate IsWord(c: char) {
    'a' <= c <= 'z' || 'A' <= c <= 'Z' || IsDigit(c) || c == '_'
  }

  /** The least position from `p` on at which " TCB:" follows, reached over
      word characters and spaces only (the lazy `[\w ]*?`). */
  function HeaderEnd(line: string, p: nat): (r: Option<nat>)
    requires p <= |line|
    ensures r.Some? ==> r.value <= |line|
    decreases |line| - p
  {
    if OccursAt(line, " TCB:", p) then Some(p)
    else if p < |line| && (IsWord(line[p]) || line[p] == ' ') then HeaderEnd(line, p + 1)
    else None
  }

  /** `re.match(r"(\w[\w ]*?) TCB:", line)`, group 1. */
  function MatchHeader(line: string): Option<string> {
    if line != [] && IsWord(line[0]) then
      match HeaderEnd(line, 1)
      case Some(q) => Some(line[..q])
      case None => None
    else None
  }

  /** The end of the run of characters from `p` that are spaces (or are not). */
  function RunEnd(line: string, p: nat, space: bool): (q: nat)
    requires p <= |line|
    ensures p <= q <= |line|
    decreases |line| - p
  {
    if p < |line| && IsSpace(line[p]) == space then RunEnd(line, p + 1, space) else p
  }

  /** A colon at `e`, then white space, then something else. */
  predicate ColonGap(line: string, e: nat) {
    && e < |line|
    && line[e] == ':'
    && var q := RunEnd(line, e + 1, true);
       e + 1 < q < |line|
  }

  function NameEnd(line: string, e: nat): (r: Option<nat>)
    ensures r.Some? ==> e <= r.value && ColonGap(line, r.value)
    decreases |line| - e
  {
    if e >= |line| then None
    else if ColonGap(line, e) then Some(e)
    else NameEnd(line, e + 1)
  }

  function ValueAfter(line: string, e: nat): string
    requires ColonGap(line, e)
  {
    var q := RunEnd(line, e + 1, true);
    line[q..RunEnd(line, q, false)]
  }

  /** Leading white space is matched greedily and given back one character at a
      time, down to one, when the rest of the pattern does not match. */
  function MatchFieldFrom(line: string, start: nat): Option<(string, string)>
    requires start <= |line|
  {
    match NameEnd(line, start + 1)
    case Some(e) => Some((line[start..e], ValueAfter(line, e)))
    case None => if start > 1 then MatchFieldFrom(line, start - 1) else None
  }

  /** `re.match(r"\s+(.+?):\s+(\S+)", line)`, groups 1 and 2. */
  function MatchField(line: string): Option<(string, string)> {
    var k := RunEnd(line, 0, true);
    if k == 0 then None else MatchFieldFrom(line, k)
  }

  // ── The parser ────────────────────────────────────────────────

  datatype Parse = Parse(sections: Sections, current: Option<string>) {
    predicate Valid() {
      current.Some? ==> current.value in sections
    }
  }

  function Feed(st: Parse, line: string): (r: Parse)
    requires st.Valid()
    ensures r.Valid()
  {
    match MatchHeader(line)
    case Some(name) => Parse(st.sections[name := map[]], Some(name))
    case None =>
      if st.current.None? then st
      else
        match MatchField(line)
        case None => st
        case Some((k, v)) =>
          var name := st.current.value;
          st.(sections := st.sections[name := st.sections[name][k := v]])
  }

  function FeedAll(st: Parse, lines: seq<string>): (r: Parse)
    requires st.Valid()
    ensures r.Valid()
    decreases |lines|
  {
    if lines == [] then st else FeedAll(Feed(st, lines[0]), lines[1..])
  }

  const START := Parse(map[], None)

  function ParseSections(output: string): Sections {
    FeedAll(START, SplitLines(output)).sections
  }

  lemma {:induction false} FeedAllConcat(st: Parse, a: seq<string>, b: seq<string>)
    requires st.Valid()
    ensures FeedAll(st, a + b) == FeedAll(FeedAll(st, a), b)
    decreases |a|
  {
    if a == [] {
      assert a + b == b;
    } else {
      assert (a + b)[1..] == a[1..] + b;
      FeedAllConcat(Feed(st, a[0]), a[1..], b);
    }
  }

  /** `_parse_tcb_sections`: a loop over the lines that updates the section
      being read and the table of sections. */
  method ParseTcbSections(output: string) returns (sections: Sections)
    ensures sections == ParseSections(output)
  {
    var lines := SplitLines(output);
    sections := map[];
    var current: Option<string> := None;
    for i := 0 to |lines|
      invariant Parse(sections, current).Valid()
      invariant FeedAll(Parse(sections, current), lines[i..]) == FeedAll(START, lines)
    {
      assert lines[i..][0] == lines[i] && lines[i..][1..] == lines[i + 1..];
      var header := MatchHeader(lines[i]);
      if header.Some? {
        sections := sections[header.value := map[]];
        current := header;
      } else if current.Some? {
        var field := MatchField(lines[i]);
        if field.Some? {
          var (k, v) := field.value;
          sections := sections[current.value := sections[current.value][k := v]];
        }
      }
    }
  }

  /** Lines that match neither pattern change nothing, wherever they stand. */
  lemma NoiseIgnored(st: Parse, a: seq<string>, noise: string, b: seq<string>)
    requires st.Valid()
    requires MatchHeader(noise).None? && MatchField(noise).None?
    ensures FeedAll(st, a + [noise] + b) == FeedAll(st, a + b)
  {
    FeedAllConcat(st, a, b);
    FeedAllConcat(st, a + [noise], b);
    FeedAllConcat(st, a, [noise]);
    assert FeedAll(FeedAll(st, a), [noise]) == FeedAll(st, a) by {
      assert [noise][1..] == [];
    }
  }

  /** Nothing before the first header is kept, not even field lines. */
  lemma {:induction false} PreambleIgnored(pre: seq<string>, rest: seq<string>)
    requires forall i | 0 <= i < |pre| :: MatchHeader(pre[i]).None?
    ensures FeedAll(START, pre + rest) == FeedAll(START, rest)
    decreases |pre|
  {
    if pre == [] {
      assert pre + rest == rest;
    } else {
      assert (pre + rest)[0] == pre[0] && (pre + rest)[1..] == pre[1..] + rest;
      PreambleIgnored(pre[1..], rest);
    }
  }

  // ── Printing ──────────────────────────────────────────────────

  datatype Field = Field(name: string, value: string)
  datatype Section = Section(name: string, fields: seq<Field>)

  predicate IsBlank(s: string) {
    s != [] && AllSpace(s) && OneLine(s)
  }

  /** White space that a line can start with or be padded with. */
  type Blank = s: string | IsBlank(s) witness " "

  /** The indent of a field's line and the gap before its value. */
  type Layout = (string, Field) -> (Blank, Blank)

  predicate FieldOk(f: Field) {
    && f.name != [] && !IsSpace(f.name[0]) && ':' !in f.name && OneLine(f.name)
    && f.value != [] && forall c <- f.value :: !IsSpace(c)
  }

  predicate SectionOk(s: Section) {
    && s.name != [] && IsWord(s.name[0])
    && (forall c <- s.name :: IsWord(c) || c == ' ')
    && forall f <- s.fields :: FieldOk(f)
  }

  const TITLE := " TCB: TCB Version:"

  function FieldLine(l: Layout, section: string, f: Field): string {
    var (indent, gap) := l(section, f);
    indent + f.name + ":" + gap + f.value
  }

  function PrintFields(l: Layout, section: string, fields: seq<Field>): string {
    if fields == [] then ""
    else FieldLine(l, section, fields[0]) + "\n" + PrintFields(l, section, fields[1..])
  }

  function PrintSections(l: Layout, secs: seq<Section>): string {
    if secs == [] then ""
    else (secs[0].name + TITLE) + "\n" + (PrintFields(l, secs[0].name, secs[0].fields) + PrintSections(l, secs[1..]))
  }

  function PrintLines(lines: seq<string>): string {
    if lines == [] then "" else lines[0] + "\n" + PrintLines(lines[1..])
  }

  // ── What printed text means ───────────────────────────────────

  function FieldsOnto(m: Fields, fields: seq<Field>): Fields
    decreases |fields|
  {
    if fields == [] then m
    else FieldsOnto(m[fields[0].name := fields[0].value], fields[1..])
  }

  function FieldsOf(fields: seq<Field>): Fields {
    FieldsOnto(map[], fields)
  }

  /** Later sections replace earlier ones of the same name. */
  function SectionsOnto(m: Sections, secs: seq<Section>): Sections
    decreases |secs|
  {
    if secs == [] then m
    else SectionsOnto(m[secs[0].name := FieldsOf(secs[0].fields)], secs[1..])
  }

  function SectionsOf(secs: seq<Section>): Sections {
    SectionsOnto(map[], secs)
  }

  lemma {:induction false} HeaderEndOf(name: string, p: nat)
    requires p <= |name|
    requires forall c <- name :: IsWord(c) || c == ' '
    ensures HeaderEnd(name + TITLE, p) == Some(|name|)
    decreases |name| - p
  {
    var line := name + TITLE;
    if p == |name| {
      assert line[p..p + 5] == TITLE[..5] == " TCB:";
    } else {
      if p + 5 <= |line| {
        assert p + 4 < |name| + 4;
        if p + 4 < |name| {
          assert line[p + 4] == name[p + 4] && name[p + 4] in name;
        } else {
          assert line[p + 4] == TITLE[p + 4 - |name|];
          assert TITLE[0] == ' ' && TITLE[1] == 'T' && TITLE[2] == 'C' && TITLE[3] == 'B';
        }
        assert line[p + 4] != ':';
        assert line[p..p + 5][4] == line[p + 4];
        assert " TCB:"[4] == ':';
      }
      assert !OccursAt(line, " TCB:", p);
      assert line[p] == name[p];
      HeaderEndOf(name, p + 1);
    }
  }

  lemma HeaderRead(name: string)
    requires SectionOk(Section(name, []))
    ensures MatchHeader(name + TITLE) == Some(name)
    ensures OneLine(name + TITLE)
  {
    HeaderEndOf(name, 1);
    assert (name + TITLE)[..|name|] == name;
    forall c <- name + TITLE
      ensures !IsLineBreak(c)
    {
      assert c in name || c in TITLE;
    }
  }

  lemma {:induction false} RunEndIs(line: string, p: nat, q: nat, space: bool)
    requires p <= q <= |line|
    requires forall i | p <= i < q :: IsSpace(line[i]) == space
    requires q == |line| || IsSpace(line[q]) != space
    ensures RunEnd(line, p, space) == q
    decreases q - p
  {
    if p < q {
      RunEndIs(line, p + 1, q, space);
    }
  }

  lemma {:induction false} NameEndIs(line: string, p: nat, e: nat)
    requires p <= e < |line| && ColonGap(line, e)
    requires forall i | p <= i < e :: line[i] != ':'
    ensures NameEnd(line, p) == Some(e)
    decreases e - p
  {
    if p < e {
      NameEndIs(line, p + 1, e);
    }
  }

  lemma FieldRead(indent: Blank, name: string, gap: Blank, value: string)
    requires FieldOk(Field(name, value))
    ensures var line := indent + name + ":" + gap + value;
            && MatchHeader(line).None?
            && MatchField(line) == Some((name, value))
            && OneLine(line)
  {
    FieldMatches(indent, name, gap, value);
    FieldIsOneLine(indent, name, gap, value);
  }

  lemma FieldIsOneLine(indent: Blank, name: string, gap: Blank, value: string)
    requires FieldOk(Field(name, value))
    ensures OneLine(indent + name + ":" + gap + value)
  {
  }

  lemma FieldMatches(indent: Blank, name: string, gap: Blank, value: string)
    requires FieldOk(Field(name, value))
    ensures var line := indent + name + ":" + gap + value;
            && MatchHeader(line).None?
            && MatchField(line) == Some((name, value))
  {
    var line := indent + name + ":" + gap + value;
    var k, e := |indent|, |indent| + |name|;
    var q := e + 1 + |gap|;
    assert forall i | 0 <= i < k :: line[i] == indent[i];
    assert forall i | k <= i < e :: line[i] == name[i - k];
    assert line[e] == ':';
    assert forall i | e < i < q :: line[i] == gap[i - e - 1];
    assert forall i | q <= i < |line| :: line[i] == value[i - q];
    assert line[k..e] == name && line[q..|line|] == value;
    FieldPlaces(line, k, e, q);
  }

  /** The two patterns on a line whose parts begin at `k`, `e` and `q`. */
  lemma FieldPlaces(line: string, k: nat, e: nat, q: nat)
    requires 0 < k < e < q < |line|
    requires forall i | 0 <= i < k :: IsSpace(line[i])
    requires !IsSpace(line[k]) && forall i | k <= i < e :: line[i] != ':'
    requires line[e] == ':'
    requires forall i | e < i < q :: IsSpace(line[i])
    requires forall i | q <= i < |line| :: !IsSpace(line[i])
    requires e + 1 < q
    ensures MatchHeader(line).None?
    ensures MatchField(line) == Some((line[k..e], line[q..|line|]))
  {
    RunEndIs(line, 0, k, true);
    RunEndIs(line, e + 1, q, true);
    RunEndIs(line, q, |line|, false);
    assert ColonGap(line, e);
    NameEndIs(line, k + 1, e);
    assert IsSpace(line[0]) && !IsWord(line[0]);
  }

  lemma {:induction false} FieldsRead(l: Layout, st: Parse, name: string, fields: seq<Field>, rest: string)
    requires st.Valid() && st.current == Some(name)
    requires forall f <- fields :: FieldOk(f)
    ensures FeedAll(st, SplitLines(PrintFields(l, name, fields) + rest))
            == FeedAll(Parse(st.sections[name := FieldsOnto(st.sections[name], fields)], Some(name)), SplitLines(rest))
    decreases |fields|
  {
    if fields == [] {
      assert PrintFields(l, name, fields) + rest == rest;
      assert st.sections[name := st.sections[name]] == st.sections;
    } else {
      var f := fields[0];
      var (indent, gap) := l(name, f);
      FieldRead(indent, f.name, gap, f.value);
      var line := FieldLine(l, name, f);
      var tail := PrintFields(l, name, fields[1..]);
      assert PrintFields(l, name, fields) + rest == line + "\n" + (tail + rest);
      FirstLine([], line, tail + rest);
      assert [] + line == line;
      var lines := SplitLines(tail + rest);
      assert ([line] + lines)[1..] == lines;
      var st' := Feed(st, line);
      assert st'.sections[name] == st.sections[name][f.name := f.value];
      FieldsRead(l, st', name, fields[1..], rest);
      assert st'.sections[name := FieldsOnto(st'.sections[name], fields[1..])]
          == st.sections[name := FieldsOnto(st.sections[name], fields)];
    }
  }

  lemma SectionRead(l: Layout, st: Parse, s: Section, rest: string)
    requires st.Valid() && SectionOk(s)
    ensures FeedAll(st, SplitLines((s.name + TITLE) + "\n" + (PrintFields(l, s.name, s.fields) + rest)))
            == FeedAll(Parse(st.sections[s.name := FieldsOf(s.fields)], Some(s.name)), SplitLines(rest))
  {
    HeaderRead(s.name);
    var header := s.name + TITLE;
    var body := PrintFields(l, s.name, s.fields) + rest;
    FirstLine([], header, body);
    assert [] + header == header;
    var lines := SplitLines(body);
    assert ([header] + lines)[1..] == lines;
    var st' := Feed(st, header);
    assert st' == Parse(st.sections[s.name := map[]], Some(s.name));
    FieldsRead(l, st', s.name, s.fields, rest);
    assert st'.sections[s.name := FieldsOf(s.fields)] == st.sections[s.name := FieldsOf(s.fields)];
  }

  lemma {:induction false} SectionsRead(l: Layout, st: Parse, secs: seq<Section>)
    requires st.Valid()
    requires forall i | 0 <= i < |secs| :: SectionOk(secs[i])
    ensures FeedAll(st, SplitLines(PrintSections(l, secs))).sections == SectionsOnto(st.sections, secs)
    decreases |secs|
  {
    if secs != [] {
      SectionRead(l, st, secs[0], PrintSections(l, secs[1..]));
      SectionsRead(l, Parse(st.sections[secs[0].name := FieldsOf(secs[0].fields)], Some(secs[0].name)), secs[1..]);
    }
  }

  lemma {:induction false} PreambleLines(pre: seq<string>, rest: string)
    requires forall i | 0 <= i < |pre| :: OneLine(pre[i])
    ensures SplitLines(PrintLines(pre) + rest) == pre + SplitLines(rest)
    decreases |pre|
  {
    if pre == [] {
      assert PrintLines(pre) + rest == rest;
      assert pre + SplitLines(rest) == SplitLines(rest);
    } else {
      assert PrintLines(pre) + rest == pre[0] + "\n" + (PrintLines(pre[1..]) + rest);
      FirstLine([], pre[0], PrintLines(pre[1..]) + rest);
      assert [] + pre[0] == pre[0];
      PreambleLines(pre[1..], rest);
      assert pre + SplitLines(rest) == [pre[0]] + (pre[1..] + SplitLines(rest));
    }
  }

  /** Parsing inverts printing: for all sections and fields with well-formed
      names and values, any padding, and any text before the first header, the
      parser returns exactly the sections that were printed. */
  lemma ParseInvertsPrint(l: Layout, pre: seq<string>, secs: seq<Section>)
    requires forall i | 0 <= i < |pre| :: OneLine(pre[i]) && MatchHeader(pre[i]).None?
    requires forall i | 0 <= i < |secs| :: SectionOk(secs[i])
    ensures ParseSections(PrintLines(pre) + PrintSections(l, secs)) == SectionsOf(secs)
  {
    PreambleLines(pre, PrintSections(l, secs));
    PreambleIgnored(pre, SplitLines(PrintSections(l, secs)));
    SectionsRead(l, START, secs);
  }

  lemma {:induction false} SectionsOntoAt(m: Sections, secs: seq<Section>, name: string)
    ensures (forall s <- secs :: s.name != name) ==>
              (name in SectionsOnto(m, secs) <==> name in m)
              && (name in m ==> SectionsOnto(m, secs)[name] == m[name])
    decreases |secs|
  {
    if secs != [] {
      SectionsOntoAt(m[secs[0].name := FieldsOf(secs[0].fields)], secs[1..], name);
    }
  }

  /** With distinct names every section is found under its own name. */
  lemma {:induction false} SectionsDistinct(m: Sections, secs: seq<Section>, k: nat)
    requires k < |secs|
    requires forall i, j | 0 <= i < j < |secs| :: secs[i].name != secs[j].name
    ensures secs[k].name in SectionsOnto(m, secs)
    ensures SectionsOnto(m, secs)[secs[k].name] == FieldsOf(secs[k].fields)
    decreases |secs|
  {
    var m' := m[secs[0].name := FieldsOf(secs[0].fields)];
    if k == 0 {
      SectionsOntoAt(m', secs[1..], secs[0].name);
    } else {
      SectionsDistinct(m', secs[1..], k - 1);
    }
  }
}
