/** HOST_DATA given as hexadecimal or base64 text. */
module HostData {
  import opened Prelude
  import opened Base64

  const HOST_DATA_SIZE := 32

  /** The white space that `bytes.fromhex` skips between bytes. */
  predicate IsAsciiSpace(c: char) {
    9 <= c as int <= 13 || c == ' '
  }

  /** `bytes.fromhex`; `None` where it raises. */
  function FromHex(s: string): Option<bytes> {
    if s == "" then Some([])
    else if IsAsciiSpace(s[0]) then FromHex(s[1..])
    else if |s| >= 2 && IsHexDigit(s[0]) && IsHexDigit(s[1]) then
      match FromHex(s[2..])
      case Some(rest) => Some([16 * HexValue(s[0]) + HexValue(s[1])] + rest)
      case None => None
    else None
  }

  predicate HasPrefix(s: string) {
    |s| >= 2 && s[0] == '0' && (s[1] == 'x' || s[1] == 'X')
  }

  function HexText(text: string): string {
    if HasPrefix(text) then text[2..] else text
  }

  function DecodeText(text: string): Option<bytes> {
    if text == "" then None
    else if |HexText(text)| == HOST_DATA_SIZE * 2 then FromHex(HexText(text))
    else if IsAscii(text) then Decode(text)
    else None
  }

  /** `_decode_host_data`; `None` where it raises `VMProfileError`. */
  function DecodeHostData(hostData: string): Option<bytes> {
    DecodeText(Strip(hostData))
  }

  /** `_validate_host_data` returns without raising. */
  predicate Validates(hostData: string) {
    var b := DecodeHostData(hostData);
    b.Some? && |b.value| == HOST_DATA_SIZE
  }

  predicate AllHex(s: string) {
    forall i | 0 <= i < |s| :: IsHexDigit(s[i])
  }

  /** `h` spells `v` in hexadecimal, in either case. */
  predicate HexSpells(h: string, v: bytes) {
    && |h| == 2 * |v| && AllHex(h)
    && forall i | 0 <= i < |v| :: v[i] == 16 * HexValue(h[2 * i]) + HexValue(h[2 * i + 1])
  }

  /** Hexadecimal text yields a byte per two characters exactly when it holds
      nothing but digits; white space only makes the result shorter. */
  lemma {:induction false} FromHexLength(s: string)
    ensures FromHex(s).Some? ==> 2 * |FromHex(s).value| <= |s|
    ensures FromHex(s).Some? ==> (2 * |FromHex(s).value| == |s| <==> AllHex(s))
    ensures AllHex(s) && |s| % 2 == 0 ==> FromHex(s).Some?
    decreases |s|
  {
    if s != "" {
      if IsAsciiSpace(s[0]) {
        FromHexLength(s[1..]);
        assert !IsHexDigit(s[0]);
      } else if |s| >= 2 && IsHexDigit(s[0]) && IsHexDigit(s[1]) {
        FromHexLength(s[2..]);
        assert AllHex(s) <==> AllHex(s[2..]) by {
          assert forall i | 0 <= i < |s| - 2 :: s[2..][i] == s[i + 2];
          assert forall i | 2 <= i < |s| :: s[i] == s[2..][i - 2];
        }
      }
    }
  }

  lemma {:induction false} FromHexReads(h: string, v: bytes)
    requires HexSpells(h, v)
    ensures FromHex(h) == Some(v)
    decreases |h|
  {
    if h != "" {
      assert !IsAsciiSpace(h[0]);
      assert h[2..] == h[2..|h|];
      forall i | 0 <= i < |v| - 1
        ensures v[1..][i] == 16 * HexValue(h[2..][2 * i]) + HexValue(h[2..][2 * i + 1])
      {
        assert v[1..][i] == v[i + 1];
        assert h[2..][2 * i] == h[2 * (i + 1)] && h[2..][2 * i + 1] == h[2 * (i + 1) + 1];
      }
      FromHexReads(h[2..], v[1..]);
      assert [v[0]] + v[1..] == v;
    }
  }

  /** The ways to write a value: hexadecimal, with or without 0x, or base64. */
  predicate Spelling(text: string, v: bytes) {
    || HexSpells(text, v)
    || (HasPrefix(text) && HexSpells(text[2..], v))
    || text == Encode(v)
  }

  lemma EncodedIsNotHex(v: bytes)
    requires |v| == HOST_DATA_SIZE
    ensures |Encode(v)| == 44 && |HexText(Encode(v))| != HOST_DATA_SIZE * 2
    ensures IsAscii(Encode(v))
  {
    EncodeShape(v);
  }

  lemma SpellingHasNoSpace(text: string, v: bytes)
    requires |v| == HOST_DATA_SIZE && Spelling(text, v)
    ensures text != "" && !IsSpace(text[0]) && !IsSpace(text[|text| - 1])
  {
  }

  /** Every spelling of every 32-byte value, with any white space around it, is
      accepted and decodes to that value. */
  lemma EverySpellingDecodes(pre: string, text: string, post: string, v: bytes)
    requires AllSpace(pre) && AllSpace(post)
    requires |v| == HOST_DATA_SIZE && Spelling(text, v)
    ensures DecodeHostData(pre + text + post) == Some(v)
    ensures Validates(pre + text + post)
  {
    SpellingHasNoSpace(text, v);
    StripPad(pre, text, post);
    if HexSpells(text, v) {
      assert IsHexDigit(text[1]);
      FromHexReads(text, v);
    } else if text == Encode(v) {
      EncodedIsNotHex(v);
      DecodeOfEncode(v);
    } else {
      FromHexReads(text[2..], v);
    }
  }

  /** A base64 text of 32 bytes is never taken for hexadecimal. */
  lemma NoBase64IsHex(text: string)
    requires Decode(text).Some? && |Decode(text).value| == HOST_DATA_SIZE
    ensures |text| == 44 && |HexText(text)| != HOST_DATA_SIZE * 2
  {
    DecodedLength(text);
  }

  lemma HexTextValid(text: string)
    requires |HexText(text)| == HOST_DATA_SIZE * 2
    ensures DecodeText(text).Some? && |DecodeText(text).value| == HOST_DATA_SIZE <==> AllHex(HexText(text))
  {
    FromHexLength(HexText(text));
  }

  /** The text, white space around it aside, that validation accepts. */
  predicate ValidText(text: string) {
    || (|text| == 64 && AllHex(text))
    || (|text| == 66 && HasPrefix(text) && AllHex(text[2..]))
    || (IsAscii(text) && Decode(text).Some? && |Decode(text).value| == HOST_DATA_SIZE)
  }

  lemma NotBoth(text: string)
    requires |HexText(text)| == HOST_DATA_SIZE * 2
    ensures ValidText(text) <==> AllHex(HexText(text))
  {
    if Decode(text).Some? && |Decode(text).value| == HOST_DATA_SIZE {
      NoBase64IsHex(text);
    }
    if |text| == 64 {
      assert HasPrefix(text) ==> |HexText(text)| == 62;
    }
  }

  lemma NotHex(text: string)
    requires |HexText(text)| != HOST_DATA_SIZE * 2
    ensures ValidText(text) <==> IsAscii(text) && Decode(text).Some? && |Decode(text).value| == HOST_DATA_SIZE
  {
  }

  /** Validation accepts exactly 64 hexadecimal digits, 0x and 64 hexadecimal
      digits, or base64 text of 32 bytes, white space around it aside. */
  lemma ValidatesExactly(hostData: string)
    ensures Validates(hostData) <==> ValidText(Strip(hostData))
  {
    var text := Strip(hostData);
    if |HexText(text)| == HOST_DATA_SIZE * 2 {
      HexTextValid(text);
      NotBoth(text);
    } else {
      NotHex(text);
      if text == "" {
        DecodedLength("");
      }
    }
  }
}
