/** The bit-string decoding of CPUID 0x80000001 EAX in the beacon report. */
module Cpuid {
  import opened Prelude
  import R = AttestationReport

  type bit = n: nat | n < 2

  /** `bin(n)[2:][::-1]`: binary digits, least significant first. */
  function ReversedBin(n: nat): (s: seq<bit>)
    ensures |s| > 0
  {
    if n < 2 then [n] else [n % 2] + ReversedBin(n / 2)
  }

  /** Python's `s[from:to]`, cut to the length of the string. */
  function Slice(s: seq<bit>, from: nat, to: nat): seq<bit>
    requires from <= to
  {
    var n := |s|;
    s[if from < n then from else n..if to < n then to else n]
  }

  /** `int(s[::-1], 2)`; `None` where it raises, on the empty string. */
  function IntOf(s: seq<bit>): Option<nat> {
    if s == [] then None else Some(BitsValue(s))
  }

  function BitsValue(s: seq<bit>): nat {
    if s == [] then 0 else s[0] + 2 * BitsValue(s[1..])
  }

  datatype FamilyModel = FamilyModel(family: nat, model: nat)

  /** The slicing of `get_processor_model`; `None` where `int` raises. */
  function Decode(eax: nat): Option<FamilyModel> {
    var s := ReversedBin(eax);
    match (IntOf(Slice(s, 8, 12)), IntOf(Slice(s, 20, 28)), IntOf(Slice(s, 4, 8) + Slice(s, 16, 20)))
    case (Some(base), Some(extended), Some(model)) => Some(FamilyModel(base + extended, model))
    case _ => None
  }

  // ── Bits of a number ──────────────────────────────────────────

  function Shr(n: nat, k: nat): nat {
    if k == 0 then n else Shr(n / 2, k - 1)
  }

  function Low(n: nat, k: nat): nat {
    if k == 0 then 0 else n % 2 + 2 * Low(n / 2, k - 1)
  }

  lemma {:induction false} ReversedBinValue(n: nat)
    ensures BitsValue(ReversedBin(n)) == n
  {
    if n >= 2 {
      ReversedBinValue(n / 2);
      assert ReversedBin(n)[1..] == ReversedBin(n / 2);
    } else {
      assert ReversedBin(n)[1..] == [];
    }
  }

  lemma {:induction false} DropShifts(s: seq<bit>, k: nat)
    requires k <= |s|
    ensures BitsValue(s[k..]) == Shr(BitsValue(s), k)
  {
    if k == 0 {
      assert s[0..] == s;
    } else {
      DropShifts(s[1..], k - 1);
      assert s[1..][k - 1..] == s[k..];
    }
  }

  lemma {:induction false} TakeMasks(s: seq<bit>, k: nat)
    ensures BitsValue(s[..if k < |s| then k else |s|]) == Low(BitsValue(s), k)
    decreases k
  {
    if s == [] {
      ZeroLow(k);
    } else if k > 0 {
      TakeMasks(s[1..], k - 1);
      var t := s[..if k < |s| then k else |s|];
      assert t[1..] == s[1..][..if k - 1 < |s[1..]| then k - 1 else |s[1..]|];
    }
  }

  lemma {:induction false} ZeroLow(k: nat)
    ensures Low(0, k) == 0
  {
    if k > 0 {
      ZeroLow(k - 1);
    }
  }

  /** A slice within the string reads the bits from `from` to `to`. */
  lemma SliceReads(n: nat, from: nat, to: nat)
    requires from <= to && from <= |ReversedBin(n)|
    ensures BitsValue(Slice(ReversedBin(n), from, to)) == Low(Shr(n, from), to - from)
  {
    var s := ReversedBin(n);
    ReversedBinValue(n);
    DropShifts(s, from);
    TakeMasks(s[from..], to - from);
    assert Slice(s, from, to) == s[from..][..if to - from < |s[from..]| then to - from else |s[from..]|];
  }

  lemma {:induction false} ConcatValue(a: seq<bit>, b: seq<bit>)
    ensures |a| == 4 ==> BitsValue(a + b) == BitsValue(a) + 16 * BitsValue(b)
  {
    if |a| == 4 {
      assert a + b == [a[0], a[1], a[2], a[3]] + b;
      PushValue(a[3], b);
      PushValue(a[2], [a[3]] + b);
      PushValue(a[1], [a[2]] + ([a[3]] + b));
      PushValue(a[0], [a[1]] + ([a[2]] + ([a[3]] + b)));
      assert a + b == [a[0]] + ([a[1]] + ([a[2]] + ([a[3]] + b)));
      PushValue(a[3], []);
      PushValue(a[2], [a[3]]);
      PushValue(a[1], [a[2], a[3]]);
      PushValue(a[0], [a[1], a[2], a[3]]);
      assert [a[3]] + [] == [a[3]] && [a[2]] + [a[3]] == [a[2], a[3]] && [a[1]] + [a[2], a[3]] == [a[1], a[2], a[3]];
      assert a == [a[0]] + [a[1], a[2], a[3]];
    }
  }

  lemma PushValue(d: bit, s: seq<bit>)
    ensures BitsValue([d] + s) == d + 2 * BitsValue(s)
  {
  }

  /** The number of binary digits says how large the number is. */
  lemma {:induction false} LengthIs(n: nat, k: nat)
    requires k > 0
    ensures |ReversedBin(n)| > k <==> Shr(n, k) > 0
    decreases k
  {
    if n < 2 {
      ShrZero(k - 1);
      assert n / 2 == 0;
    } else if k > 1 {
      LengthIs(n / 2, k - 1);
    }
  }

  lemma {:induction false} ShrZero(k: nat)
    ensures Shr(0, k) == 0
  {
    if k > 0 {
      ShrZero(k - 1);
    }
  }

  lemma {:induction false} ShrAdds(n: nat, j: nat, k: nat)
    ensures Shr(n, j + k) == Shr(Shr(n, j), k)
    decreases j
  {
    if j > 0 {
      ShrAdds(n / 2, j - 1, k);
    }
  }

  lemma ShrFour(n: nat)
    ensures Shr(n, 4) == n / 16
  {
    assert Shr(n, 4) == Shr(n / 2, 3) == Shr(n / 2 / 2, 2) == Shr(n / 2 / 2 / 2, 1) == Shr(n / 2 / 2 / 2 / 2, 0);
  }

  lemma ShrIs(n: nat)
    ensures Shr(n, 4) == n / 0x10 && Shr(n, 8) == n / 0x100
    ensures Shr(n, 16) == n / 0x1_0000 && Shr(n, 20) == n / 0x10_0000
  {
    ShrFour(n);
    ShrAdds(n, 4, 4);
    ShrFour(n / 0x10);
    ShrAdds(n, 8, 4);
    ShrFour(n / 0x100);
    ShrAdds(n, 12, 4);
    ShrFour(n / 0x1000);
    ShrAdds(n, 16, 4);
    ShrFour(n / 0x1_0000);
  }

  function PowerOfTwo(k: nat): (p: nat)
    ensures p > 0
  {
    if k == 0 then 1 else 2 * PowerOfTwo(k - 1)
  }

  lemma MultipleWithin(k: int, d: int)
    requires -d < k * d < d
    ensures k == 0
  {
  }

  lemma ModUnique(n: nat, q: nat, d: nat, r: nat)
    requires r < d && n == q * d + r
    ensures n % d == r
  {
    var k := n / d - q;
    assert k * d == n / d * d - q * d;
    assert k * d == r - n % d;
    MultipleWithin(k, d);
  }

  lemma HalfMod(n: nat, m: nat)
    requires m > 0
    ensures n % (2 * m) == n % 2 + 2 * (n / 2 % m)
  {
    var q, r := n / 2 / m, n / 2 % m;
    assert n / 2 == q * m + r;
    assert q * (2 * m) == 2 * (q * m);
    ModUnique(n, q, 2 * m, n % 2 + 2 * r);
  }

  lemma {:induction false} LowIs(n: nat, k: nat)
    ensures Low(n, k) == n % PowerOfTwo(k)
  {
    if k > 0 {
      LowIs(n / 2, k - 1);
      HalfMod(n, PowerOfTwo(k - 1));
    }
  }

  lemma {:induction false} SmallPower(k: nat)
    requires k < 8
    ensures PowerOfTwo(k) == [1, 2, 4, 8, 16, 32, 64, 128][k]
  {
    if k > 0 {
      SmallPower(k - 1);
    }
  }

  lemma LowFour(n: nat)
    ensures Low(n, 4) == n % 16
  {
    LowIs(n, 4);
    SmallPower(4);
  }

  lemma LowEight(n: nat)
    ensures Low(n, 8) == n % 256
  {
    LowIs(n, 8);
    SmallPower(7);
  }

  /** The string slicing computes the documented bit fields: the family is bits
      11:8 plus bits 27:20 and the model is bits 19:16 above bits 7:4; and it
      raises exactly when EAX is below 2^20, where no digit is left for the
      extended family. */
  lemma DecodeIsArithmetic(eax: nat)
    ensures Decode(eax) ==
              if eax < 0x10_0000 then None
              else Some(FamilyModel(eax / 0x100 % 16 + eax / 0x10_0000 % 256,
                                    eax / 0x1_0000 % 16 * 16 + eax / 0x10 % 16))
  {
    var s := ReversedBin(eax);
    LengthIs(eax, 20);
    ShrIs(eax);
    if eax >= 0x10_0000 {
      FieldsRead(eax);
      ConcatValue(Slice(s, 4, 8), Slice(s, 16, 20));
    } else {
      assert Slice(s, 20, 28) == [];
    }
  }

  lemma FieldsRead(eax: nat)
    requires |ReversedBin(eax)| > 20
    ensures var s := ReversedBin(eax);
            && BitsValue(Slice(s, 8, 12)) == eax / 0x100 % 16
            && BitsValue(Slice(s, 20, 28)) == eax / 0x10_0000 % 256
            && BitsValue(Slice(s, 4, 8)) == eax / 0x10 % 16
            && BitsValue(Slice(s, 16, 20)) == eax / 0x1_0000 % 16
  {
    ShrIs(eax);
    SliceReads(eax, 8, 12);
    SliceReads(eax, 20, 28);
    SliceReads(eax, 4, 8);
    SliceReads(eax, 16, 20);
    LowFour(eax / 0x100);
    LowEight(eax / 0x10_0000);
    LowFour(eax / 0x10);
    LowFour(eax / 0x1_0000);
  }

  // ── Classification ────────────────────────────────────────────

  /** The branch chain of `get_processor_model`: codename, or `None` for an
      invalid CPU. */
  function Codename(p: FamilyModel): Option<string> {
    if p.family == 23 && p.model <= 15 then Some("Naples")
    else if p.family == 23 && 48 <= p.model <= 63 then Some("Rome")
    else if p.family == 25 && p.model <= 15 then Some("Milan")
    else if p.family == 25 && (16 <= p.model <= 31 || 160 <= p.model <= 175) then Some("Genoa")
    else if p.family == 26 && p.model <= 17 then Some("Turin")
    else None
  }

  /** On SNP families the beacon and the report parser know the same processors;
      the beacon calls Bergamo/Siena parts Genoa, and otherwise the names agree. */
  lemma SameProcessorsKnown(p: FamilyModel)
    requires p.family in {0x19, 0x1A}
    ensures Codename(p).Some? <==> R.Resolve(p.family, p.model).Some?
    ensures Codename(p).Some? ==>
              var g := R.Resolve(p.family, p.model).value.name;
              Codename(p).value == if g == "Bergamo/Siena" then "Genoa" else g
  {
    R.ResolveByRange(p.family, p.model);
    assert "Milan"[0] != 'B' && "Genoa"[0] != 'B' && "Turin"[0] != 'B' && "Bergamo/Siena"[0] == 'B';
  }
}
