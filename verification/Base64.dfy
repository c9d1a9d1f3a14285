/** Base64 (section 4 of RFC 4648) and the file pull that goes through it. */
module Base64 {
  import opened Prelude

  // ── The alphabet ──────────────────────────────────────────────

  function Symbol(v: nat): (c: char)
    requires v < 64
    ensures Value(c) == Some(v)
    ensures !IsSpace(c) && c != '=' && (c as int) < 128
  {
    if v < 26 then 'A' + v as char
    else if v < 52 then 'a' + (v - 26) as char
    else if v < 62 then '0' + (v - 52) as char
    else if v == 62 then '+'
    else '/'
  }

  function Value(c: char): (v: Option<nat>)
    ensures v.Some? ==> v.value < 64
  {
    if 'A' <= c <= 'Z' then Some(c as int - 'A' as int)
    else if 'a' <= c <= 'z' then Some(26 + (c as int - 'a' as int))
    else if '0' <= c <= '9' then Some(52 + (c as int - '0' as int))
    else if c == '+' then Some(62)
    else if c == '/' then Some(63)
    else None
  }

  predicate Symbols(s: string) {
    forall i | 0 <= i < |s| :: Value(s[i]).Some?
  }

  type sextet = n: int | 0 <= n < 64

  function Text(xs: seq<sextet>): (s: string)
    ensures |s| == |xs|
  {
    seq(|xs|, i requires 0 <= i < |xs| => Symbol(xs[i]))
  }

  function Values(s: string): (xs: seq<sextet>)
    requires Symbols(s)
    ensures |xs| == |s|
  {
    seq<sextet>(|s|, i requires 0 <= i < |s| => Value(s[i]).value)
  }

  lemma ValuesOfText(xs: seq<sextet>)
    ensures Symbols(Text(xs)) && Values(Text(xs)) == xs
  {
  }

  // ── Three bytes as four sextets ───────────────────────────────

  function Sextets(s: bytes): seq<sextet> {
    if s == [] then []
    else if |s| == 1 then [s[0] / 4, s[0] % 4 * 16]
    else if |s| == 2 then [s[0] / 4, s[0] % 4 * 16 + s[1] / 16, s[1] % 16 * 4]
    else [s[0] / 4, s[0] % 4 * 16 + s[1] / 16, s[1] % 16 * 4 + s[2] / 64, s[2] % 64] + Sextets(s[3..])
  }

  function First(x0: sextet, x1: sextet): byte {
    x0 * 4 + x1 / 16
  }

  function Second(x1: sextet, x2: sextet): byte {
    x1 % 16 * 16 + x2 / 4
  }

  function Third(x2: sextet, x3: sextet): byte {
    x2 % 4 * 64 + x3
  }

  /** The bits left over in a last group of two or three sextets are dropped. */
  function Join(xs: seq<sextet>): bytes {
    if |xs| < 2 then []
    else if |xs| == 2 then [First(xs[0], xs[1])]
    else if |xs| == 3 then [First(xs[0], xs[1]), Second(xs[1], xs[2])]
    else [First(xs[0], xs[1]), Second(xs[1], xs[2]), Third(xs[2], xs[3])] + Join(xs[4..])
  }

  lemma JoinGroup(a: byte, b: byte, c: byte)
    ensures var x0, x1, x2, x3 := a / 4, a % 4 * 16 + b / 16, b % 16 * 4 + c / 64, c % 64;
            First(x0, x1) == a && Second(x1, x2) == b && Third(x2, x3) == c
  {
  }

  lemma {:induction false} JoinOfSextets(s: bytes)
    ensures Join(Sextets(s)) == s
    decreases |s|
  {
    if |s| == 1 {
      JoinGroup(s[0], 0, 0);
    } else if |s| == 2 {
      JoinGroup(s[0], s[1], 0);
    } else if |s| >= 3 {
      JoinGroup(s[0], s[1], s[2]);
      JoinOfSextets(s[3..]);
      assert Sextets(s)[4..] == Sextets(s[3..]);
    }
  }

  lemma {:induction false} SextetCount(s: bytes)
    ensures |Sextets(s)| == |s| / 3 * 4 + (if |s| % 3 == 0 then 0 else |s| % 3 + 1)
    decreases |s|
  {
    if |s| >= 3 {
      SextetCount(s[3..]);
    }
  }

  lemma {:induction false} JoinCount(xs: seq<sextet>)
    ensures |Join(xs)| == |xs| / 4 * 3 + (if |xs| % 4 == 0 then 0 else |xs| % 4 - 1)
    decreases |xs|
  {
    if |xs| >= 4 {
      JoinCount(xs[4..]);
    }
  }

  // ── Encoding and strict decoding ──────────────────────────────

  function Pads(symbols: nat): string {
    if symbols % 4 == 2 then "==" else if symbols % 4 == 3 then "=" else ""
  }

  function Encode(s: bytes): string {
    Text(Sextets(s)) + Pads(|Sextets(s)|)
  }

  /** The text before its first pad. */
  function Body(s: string): (b: string)
    ensures |b| <= |s| && s[..|b|] == b && '=' !in b
    ensures |b| < |s| ==> s[|b|] == '='
  {
    if s == "" || s[0] == '=' then "" else [s[0]] + Body(s[1..])
  }

  /** The pads that may follow so many symbols: those that complete the last
      quad; any number after a complete quad; none at the start. */
  predicate PadsFit(symbols: nat, pads: nat) {
    match symbols % 4
    case 0 => symbols > 0 || pads == 0
    case 1 => false
    case 2 => pads == 2
    case _ => pads == 1
  }

  predicate AllPads(s: string) {
    forall i | 0 <= i < |s| :: s[i] == '='
  }

  /** `binascii.a2b_base64` in strict mode, on ASCII text: symbols, then pads,
      and nothing else. The bits that a padded quad leaves unused are not
      examined, nor are pads counted after a complete quad. */
  function Decode(s: string): Option<bytes> {
    var b := Body(s);
    if Symbols(b) && AllPads(s[|b|..]) && PadsFit(|b|, |s| - |b|) then Some(Join(Values(b))) else None
  }

  lemma {:induction false} BodyOf(t: string, pads: string)
    requires '=' !in t && AllPads(pads)
    ensures Body(t + pads) == t
  {
    if t == "" {
      assert t + pads == pads;
    } else {
      assert (t + pads)[1..] == t[1..] + pads;
      BodyOf(t[1..], pads);
      assert [t[0]] + t[1..] == t;
    }
  }

  /** Text of sextets decodes, with any pads that fit. */
  lemma DecodePadded(xs: seq<sextet>, pads: string)
    requires AllPads(pads) && PadsFit(|xs|, |pads|)
    ensures Decode(Text(xs) + pads) == Some(Join(xs))
  {
    var t := Text(xs);
    ValuesOfText(xs);
    assert '=' !in t by {
      assert forall i | 0 <= i < |t| :: t[i] == Symbol(xs[i]);
    }
    BodyOf(t, pads);
    assert (t + pads)[|t|..] == pads;
  }

  lemma SextetsComplete(s: bytes)
    ensures |Sextets(s)| % 4 != 1
  {
  }

  /** Decoding inverts encoding. */
  lemma DecodeOfEncode(s: bytes)
    ensures Decode(Encode(s)) == Some(s)
  {
    SextetsComplete(s);
    JoinOfSextets(s);
    DecodePadded(Sextets(s), Pads(|Sextets(s)|));
  }

  predicate IsAscii(s: string) {
    forall i | 0 <= i < |s| :: (s[i] as int) < 128
  }

  predicate NoSpace(s: string) {
    forall i | 0 <= i < |s| :: !IsSpace(s[i])
  }

  lemma PadsFill(groups: nat, rest: nat)
    requires rest in {0, 2, 3}
    ensures 4 * groups + rest + |Pads(4 * groups + rest)| == if rest == 0 then 4 * groups else 4 * (groups + 1)
  {
    assert (4 * groups + rest) % 4 == rest;
  }

  lemma GroupArithmetic(n: nat, symbols: nat)
    requires symbols == n / 3 * 4 + (if n % 3 == 0 then 0 else n % 3 + 1)
    ensures symbols + |Pads(symbols)| == (n + 2) / 3 * 4
    ensures symbols == 0 <==> n == 0
  {
    var q, r := n / 3, n % 3;
    assert n == 3 * q + r;
    PadsFill(q, if r == 0 then 0 else r + 1);
    assert (n + 2) / 3 == if r == 0 then q else q + 1;
  }

  lemma PaddedIsPlain(xs: seq<sextet>)
    ensures NoSpace(Text(xs) + Pads(|xs|)) && IsAscii(Text(xs) + Pads(|xs|))
  {
  }

  lemma EncodeShape(s: bytes)
    ensures |Encode(s)| == (|s| + 2) / 3 * 4
    ensures Encode(s) == "" <==> s == []
    ensures NoSpace(Encode(s)) && IsAscii(Encode(s))
  {
    SextetCount(s);
    GroupArithmetic(|s|, |Sextets(s)|);
    PaddedIsPlain(Sextets(s));
  }

  /** The length of a decoded text follows from its symbols. */
  lemma DecodedLength(s: string)
    requires Decode(s).Some?
    ensures var n := |Body(s)|;
            |Decode(s).value| == n / 4 * 3 + (if n % 4 == 0 then 0 else n % 4 - 1)
    ensures Decode(s).value == [] <==> s == ""
  {
    JoinCount(Values(Body(s)));
  }

  // ── Pulling a file ────────────────────────────────────────────

  /** `re.sub(r"\s+", "", s)`. */
  function RemoveSpace(s: string): string {
    if s == "" then ""
    else (if IsSpace(s[0]) then "" else [s[0]]) + RemoveSpace(s[1..])
  }

  /** `spaced` is `s` with white space put in anywhere. */
  predicate Spaced(s: string, spaced: string)
    decreases |spaced|
  {
    if spaced == "" then s == ""
    else if IsSpace(spaced[0]) then Spaced(s, spaced[1..])
    else s != "" && s[0] == spaced[0] && Spaced(s[1..], spaced[1..])
  }

  /** Removing white space undoes every way of putting it in. */
  lemma {:induction false} RemoveSpaceInverts(s: string, spaced: string)
    requires NoSpace(s)
    ensures Spaced(s, spaced) <==> RemoveSpace(spaced) == s
    decreases |spaced|
  {
    if spaced != "" {
      if IsSpace(spaced[0]) {
        RemoveSpaceInverts(s, spaced[1..]);
        assert "" + RemoveSpace(spaced[1..]) == RemoveSpace(spaced[1..]);
      } else if s != "" {
        RemoveSpaceInverts(s[1..], spaced[1..]);
        var r := [spaced[0]] + RemoveSpace(spaced[1..]);
        assert r[1..] == RemoveSpace(spaced[1..]);
        assert [s[0]] + s[1..] == s;
      }
    }
  }

  /** `GuestVsockError` is a failure the runner reports; other exceptions get
      past it. */
  datatype Fetched = File(content: bytes) | VsockError | Escapes

  /** `fetch_guest_file_bytes`, from the guest's reply on. Non-ASCII output
      makes the decoder raise an exception that is not caught here. */
  function Fetch(exitCode: int, stdout: string): Fetched {
    var clean := RemoveSpace(stdout);
    if exitCode != 0 || clean == "" then VsockError
    else if !IsAscii(clean) then Escapes
    else
      match Decode(clean)
      case Some(content) => File(content)
      case None => VsockError
  }

  lemma SpacedTextFetched(text: string, stdout: string, content: bytes)
    requires NoSpace(text) && IsAscii(text) && Decode(text) == Some(content)
    requires Spaced(text, stdout)
    ensures Fetch(0, stdout) == if text == "" then VsockError else File(content)
  {
    RemoveSpaceInverts(text, stdout);
  }

  /** A file pull is exact: however the guest breaks the lines of its base64
      text, the bytes that arrive are the bytes of the file; the empty file, and
      no other, is refused. */
  lemma PullIsExact(content: bytes, stdout: string)
    requires Spaced(Encode(content), stdout)
    ensures Fetch(0, stdout) == if content == [] then VsockError else File(content)
  {
    EncodeShape(content);
    DecodeOfEncode(content);
    SpacedTextFetched(Encode(content), stdout, content);
  }

  /** A pull succeeds exactly on text that is base64 once white space is gone,
      and lets an exception out exactly when such text is not ASCII. */
  lemma FetchedIsDecoded(exitCode: int, stdout: string)
    ensures var clean := RemoveSpace(stdout);
            && (Fetch(exitCode, stdout).File? <==>
                  exitCode == 0 && clean != "" && IsAscii(clean) && Decode(clean).Some?)
            && (Fetch(exitCode, stdout).Escapes? <==> exitCode == 0 && !IsAscii(clean))
    ensures Fetch(exitCode, stdout).File? ==> Fetch(exitCode, stdout).content != []
  {
    if Fetch(exitCode, stdout).File? {
      DecodedLength(RemoveSpace(stdout));
    }
  }

  /** A single character outside ASCII is enough. */
  lemma NonAsciiEscapes()
    ensures Fetch(0, [0xE9 as char]) == Escapes
  {
    assert RemoveSpace([0xE9 as char]) == [0xE9 as char];
  }

  /** Base64 text of whole groups may carry any number of surplus pads. */
  lemma SurplusPadsIgnored(content: bytes, pads: string)
    requires content != [] && |content| % 3 == 0 && AllPads(pads)
    ensures Fetch(0, Encode(content) + pads) == File(content)
  {
    var xs := Sextets(content);
    SextetCount(content);
    JoinOfSextets(content);
    assert Encode(content) == Text(xs);
    DecodePadded(xs, pads);
    PaddedIsPlain(xs);
    var text := Encode(content) + pads;
    assert NoSpace(text) && IsAscii(text);
    SpacedSame(text);
    SpacedTextFetched(text, text, content);
  }

  lemma {:induction false} SpacedSame(s: string)
    requires NoSpace(s)
    ensures Spaced(s, s)
  {
    if s != "" {
      SpacedSame(s[1..]);
    }
  }
}
