/** Small vocabulary shared by the modules: options, and the Python string
    operations the harness relies on. */
module Prelude {

  datatype Option<+T> = None | Some(value: T)

  type byte = n: int | 0 <= n < 256

  type bytes = seq<byte>

  // ── Characters ────────────────────────────────────────────────

  /** The characters for which Python's `str.isspace` (and `\s`) holds. */
  predicate IsSpace(c: char) {
    var n := c as int;
    || 9 <= n <= 13 || 28 <= n <= 32 || n == 0x85 || n == 0xA0 || n == 0x1680
    || 0x2000 <= n <= 0x200A || n == 0x2028 || n == 0x2029 || n == 0x202F
    || n == 0x205F || n == 0x3000
  }

  /** The characters at which Python's `str.splitlines` ends a line. */
  predicate IsLineBreak(c: char) {
    var n := c as int;
    10 <= n <= 13 || 28 <= n <= 30 || n == 0x85 || n == 0x2028 || n == 0x2029
  }

  predicate IsDigit(c: char) {
    '0' <= c <= '9'
  }

  // ── Stripping and searching ───────────────────────────────────

  function StripLeft(s: string): (r: string)
    ensures |r| <= |s|
  {
    if s != [] && IsSpace(s[0]) then StripLeft(s[1..]) else s
  }

  function StripRight(s: string): (r: string)
    ensures |r| <= |s|
  {
    if s != [] && IsSpace(s[|s| - 1]) then StripRight(s[..|s| - 1]) else s
  }

  /** Python's `str.strip()`. */
  function Strip(s: string): string {
    StripRight(StripLeft(s))
  }

  predicate AllSpace(s: string) {
    forall c <- s :: IsSpace(c)
  }

  lemma {:induction false} StripLeftPad(a: string, s: string)
    requires AllSpace(a)
    requires s == [] || !IsSpace(s[0])
    ensures StripLeft(a + s) == s
  {
    if a == [] {
      assert a + s == s;
    } else {
      assert (a + s)[1..] == a[1..] + s;
      StripLeftPad(a[1..], s);
    }
  }

  lemma {:induction false} StripRightPad(s: string, b: string)
    requires AllSpace(b)
    requires s == [] || !IsSpace(s[|s| - 1])
    ensures StripRight(s + b) == s
  {
    if b == [] {
      assert s + b == s;
    } else {
      assert (s + b)[..|s + b| - 1] == s + b[..|b| - 1];
      StripRightPad(s, b[..|b| - 1]);
    }
  }

  /** Stripping removes exactly the surrounding whitespace. */
  lemma StripPad(a: string, s: string, b: string)
    requires AllSpace(a) && AllSpace(b)
    requires s != [] && !IsSpace(s[0]) && !IsSpace(s[|s| - 1])
    ensures Strip(a + s + b) == s
  {
    assert a + s + b == a + (s + b);
    StripLeftPad(a, s + b);
    StripRightPad(s, b);
  }

  predicate OccursAt(hay: string, needle: string, i: nat) {
    i + |needle| <= |hay| && hay[i..i + |needle|] == needle
  }

  /** Python's `needle in hay`. */
  predicate Contains(hay: string, needle: string) {
    exists i :: 0 <= i <= |hay| && OccursAt(hay, needle, i)
  }

  lemma NotContainsByFirst(hay: string, needle: string)
    requires needle != [] && needle[0] !in hay
    ensures !Contains(hay, needle)
  {
  }

  // ── Splitting ─────────────────────────────────────────────────

  /** Python's `s.split(sep)` for a one-character separator. */
  function SplitOn(s: string, sep: char): (r: seq<string>)
    ensures |r| >= 1
  {
    if s == [] then [""]
    else if s[0] == sep then [""] + SplitOn(s[1..], sep)
    else
      var r := SplitOn(s[1..], sep);
      [[s[0]] + r[0]] + r[1..]
  }

  lemma {:induction false} SplitOnHead(a: string, sep: char, b: string)
    requires sep !in a
    ensures SplitOn(a + [sep] + b, sep) == [a] + SplitOn(b, sep)
  {
    if a == [] {
      assert a + [sep] + b == [sep] + b;
      assert ([sep] + b)[1..] == b;
    } else {
      assert (a + [sep] + b)[1..] == a[1..] + [sep] + b;
      SplitOnHead(a[1..], sep, b);
      assert [a[0]] + a[1..] == a;
    }
  }

  lemma {:induction false} SplitOnNone(a: string, sep: char)
    requires sep !in a
    ensures SplitOn(a, sep) == [a]
  {
    if a != [] {
      SplitOnNone(a[1..], sep);
      assert [a[0]] + a[1..] == a;
    }
  }

  // ── Decimal numbers ───────────────────────────────────────────

  function Digit(n: nat): char
    requires n < 10
  {
    '0' + n as char
  }

  /** `str(n)` for a non-negative integer. */
  function Dec(n: nat): (s: string)
    ensures s != [] && forall c <- s :: IsDigit(c)
  {
    if n < 10 then [Digit(n)] else Dec(n / 10) + [Digit(n % 10)]
  }

  /** `str(n)` for any integer. */
  function IntStr(n: int): string {
    if n < 0 then "-" + Dec(-n) else Dec(n)
  }

  function DigitValue(c: char): nat
    requires IsDigit(c)
  {
    c as int - '0' as int
  }

  function DigitsValue(s: string): nat
    requires forall c <- s :: IsDigit(c)
  {
    if s == [] then 0 else 10 * DigitsValue(s[..|s| - 1]) + DigitValue(s[|s| - 1])
  }

  /** `int(s)` for a run of decimal digits; any other text is refused. */
  function ParseDec(s: string): Option<nat> {
    if s != [] && forall c <- s :: IsDigit(c) then Some(DigitsValue(s)) else None
  }

  lemma {:induction false} DigitsValueOfDec(n: nat)
    ensures DigitsValue(Dec(n)) == n
  {
    if n < 10 {
      assert Dec(n)[..0] == [];
      assert DigitsValue([]) == 0;
    } else {
      DigitsValueOfDec(n / 10);
      assert Dec(n)[..|Dec(n)| - 1] == Dec(n / 10);
    }
  }

  /** Reading a printed number gives it back, so printing is injective. */
  lemma ParseDecOfDec(n: nat)
    ensures ParseDec(Dec(n)) == Some(n)
  {
    DigitsValueOfDec(n);
  }

  lemma DecInjective(m: nat, n: nat)
    ensures Dec(m) == Dec(n) <==> m == n
  {
    ParseDecOfDec(m);
    ParseDecOfDec(n);
  }

  // ── Hexadecimal digits ────────────────────────────────────────

  predicate IsHexDigit(c: char) {
    IsDigit(c) || 'a' <= c <= 'f' || 'A' <= c <= 'F'
  }

  function HexValue(c: char): (v: nat)
    requires IsHexDigit(c)
    ensures v < 16
  {
    if IsDigit(c) then c as int - '0' as int
    else if 'a' <= c <= 'f' then 10 + (c as int - 'a' as int)
    else 10 + (c as int - 'A' as int)
  }
}
