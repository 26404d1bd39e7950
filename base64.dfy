/**
 * `base64url` of src/panel/server-router.js: Node's standard base64 of the bytes (section 4 of
 * RFC 4648, padded), then every `=` removed, `+` turned into `-` and `/` into `_`. The result is
 * the unpadded encoding with the URL and filename safe alphabet of section 5 of RFC 4648, which
 * decodes back to the bytes.
 */
module Base64 {
  import opened Wrappers

  type byte = x: int | 0 <= x < 256

  // ---------------------------------------------------------------------------
  // The two alphabets

  /** Table 1 of RFC 4648: the standard alphabet. */
  function StdDigit(v: nat): char
    requires v < 64
  {
    if v < 26 then ('A' as int + v) as char
    else if v < 52 then ('a' as int + (v - 26)) as char
    else if v < 62 then ('0' as int + (v - 52)) as char
    else if v == 62 then '+'
    else '/'
  }

  /** Table 2 of RFC 4648: the URL and filename safe alphabet. */
  function UrlDigit(v: nat): char
    requires v < 64
  {
    if v < 26 then ('A' as int + v) as char
    else if v < 52 then ('a' as int + (v - 26)) as char
    else if v < 62 then ('0' as int + (v - 52)) as char
    else if v == 62 then '-'
    else '_'
  }

  function Digit(url: bool, v: nat): char
    requires v < 64
  {
    if url then UrlDigit(v) else StdDigit(v)
  }

  /** The value of a character of the URL and filename safe alphabet. */
  function Value(c: char): (r: Option<nat>)
    ensures r.Some? ==> r.value < 64
  {
    if 'A' <= c <= 'Z' then Some(c as int - 'A' as int)
    else if 'a' <= c <= 'z' then Some(c as int - 'a' as int + 26)
    else if '0' <= c <= '9' then Some(c as int - '0' as int + 52)
    else if c == '-' then Some(62)
    else if c == '_' then Some(63)
    else None
  }

  /** The URL and filename safe alphabet and `Value` are inverse to each other. */
  lemma ValueOfDigit(v: nat, c: char)
    requires v < 64
    ensures Value(UrlDigit(v)) == Some(v)
    ensures Value(c).Some? ==> UrlDigit(Value(c).value) == c
  {
  }

  // ---------------------------------------------------------------------------
  // Encoding

  /** The digit values of the first group of one to three bytes: six bits each, the last one
      filled up with zero bits. */
  function Sextets(b: seq<byte>): (r: seq<nat>)
    requires 1 <= |b|
    ensures |r| == (if |b| < 3 then |b| else 3) + 1 && forall i :: 0 <= i < |r| ==> r[i] < 64
  {
    if |b| == 1 then [b[0] / 4, b[0] % 4 * 16]
    else if |b| == 2 then [b[0] / 4, b[0] % 4 * 16 + b[1] / 16, b[1] % 16 * 4]
    else [b[0] / 4, b[0] % 4 * 16 + b[1] / 16, b[1] % 16 * 4 + b[2] / 64, b[2] % 64]
  }

  /** The characters of digit values in one alphabet. */
  function Digits(vs: seq<nat>, url: bool): (r: string)
    requires forall i :: 0 <= i < |vs| ==> vs[i] < 64
    ensures |r| == |vs| && forall i :: 0 <= i < |vs| ==> r[i] == Digit(url, vs[i])
    decreases |vs|
  {
    if |vs| == 0 then [] else [Digit(url, vs[0])] + Digits(vs[1..], url)
  }

  /** The encoding of `b`, three bytes to four characters, in one of the two alphabets, with
      or without the `=` padding of a last group of one or two bytes. */
  function Encode(b: seq<byte>, url: bool, pad: bool): string
    decreases |b|
  {
    if |b| == 0 then []
    else if |b| < 3 then Digits(Sextets(b), url) + (if !pad then [] else if |b| == 1 then "==" else "=")
    else Digits(Sextets(b), url) + Encode(b[3..], url, pad)
  }

  /** `Buffer.from(b).toString("base64")`: section 4 of RFC 4648, padded. */
  function StdBase64(b: seq<byte>): string {
    Encode(b, false, true)
  }

  /** Section 5 of RFC 4648 without padding. */
  function UnpaddedUrl(b: seq<byte>): string {
    Encode(b, true, false)
  }

  /** `s.replace(/c/g, "")`. */
  function RemoveAll(s: string, c: char): (r: string)
    decreases |s|
  {
    if |s| == 0 then [] else (if s[0] == c then [] else [s[0]]) + RemoveAll(s[1..], c)
  }

  /** `s.replace(/c/g, d)` for one character `d`. */
  function ReplaceAll(s: string, c: char, d: char): (r: string)
    decreases |s|
  {
    if |s| == 0 then [] else [if s[0] == c then d else s[0]] + ReplaceAll(s[1..], c, d)
  }

  /** `.replace(/=/g, "").replace(/\+/g, "-").replace(/\//g, "_")`. */
  function UrlSafe(s: string): string {
    ReplaceAll(ReplaceAll(RemoveAll(s, '='), '+', '-'), '/', '_')
  }

  /** `base64url(input)` for the bytes of `input`. */
  function Base64Url(b: seq<byte>): string {
    UrlSafe(StdBase64(b))
  }

  lemma {:induction false} RemoveAllConcat(s: string, t: string, c: char)
    ensures RemoveAll(s + t, c) == RemoveAll(s, c) + RemoveAll(t, c)
    decreases |s|
  {
    if |s| > 0 {
      assert (s + t)[1..] == s[1..] + t;
      RemoveAllConcat(s[1..], t, c);
    } else {
      assert s + t == t;
    }
  }

  lemma {:induction false} ReplaceAllConcat(s: string, t: string, c: char, d: char)
    ensures ReplaceAll(s + t, c, d) == ReplaceAll(s, c, d) + ReplaceAll(t, c, d)
    decreases |s|
  {
    if |s| > 0 {
      assert (s + t)[1..] == s[1..] + t;
      ReplaceAllConcat(s[1..], t, c, d);
    } else {
      assert s + t == t;
    }
  }

  /** The three replacements work character by character, so they split over `+`. */
  lemma UrlSafeConcat(s: string, t: string)
    ensures UrlSafe(s + t) == UrlSafe(s) + UrlSafe(t)
  {
    RemoveAllConcat(s, t, '=');
    var s1, t1 := RemoveAll(s, '='), RemoveAll(t, '=');
    ReplaceAllConcat(s1, t1, '+', '-');
    ReplaceAllConcat(ReplaceAll(s1, '+', '-'), ReplaceAll(t1, '+', '-'), '/', '_');
  }

  /** The replacements on one character. */
  lemma UrlSafeChar(c: char)
    ensures UrlSafe([c]) == if c == '=' then [] else [if c == '+' then '-' else if c == '/' then '_' else c]
  {
    assert [c][1..] == [];
    assert RemoveAll([], '=') == [];
    var s1 := RemoveAll([c], '=');
    assert s1 == if c == '=' then [] else [c];
    if c != '=' {
      var d := if c == '+' then '-' else c;
      assert ReplaceAll(s1, '+', '-') == [d] + ReplaceAll([], '+', '-');
      assert ReplaceAll([d], '/', '_') == [if d == '/' then '_' else d] + ReplaceAll([], '/', '_');
    }
  }

  /** The replacements turn a standard digit into the safe digit of the same value. */
  lemma UrlSafeDigit(v: nat)
    requires v < 64
    ensures UrlSafe([StdDigit(v)]) == [UrlDigit(v)]
  {
    UrlSafeChar(StdDigit(v));
  }

  /** The replacements drop the padding. */
  lemma UrlSafePadding()
    ensures UrlSafe("==") == [] && UrlSafe("=") == []
  {
    UrlSafeChar('=');
    UrlSafeConcat("=", "=");
    assert "=" + "=" == "==";
  }

  /** The replacements turn standard digits into safe digits. */
  lemma {:induction false} UrlSafeDigits(vs: seq<nat>)
    requires forall i :: 0 <= i < |vs| ==> vs[i] < 64
    ensures UrlSafe(Digits(vs, false)) == Digits(vs, true)
    decreases |vs|
  {
    if |vs| > 0 {
      UrlSafeDigits(vs[1..]);
      UrlSafeConcat([StdDigit(vs[0])], Digits(vs[1..], false));
      UrlSafeDigit(vs[0]);
    } else {
      assert RemoveAll([], '=') == [];
    }
  }

  /** Removing the padding and swapping the two characters that differ gives, from Node's
      padded standard base64, the unpadded encoding of section 5 of RFC 4648. */
  lemma {:induction false} Base64UrlIsUnpaddedUrl(b: seq<byte>)
    ensures Base64Url(b) == UnpaddedUrl(b)
    decreases |b|
  {
    if |b| == 0 {
      assert RemoveAll([], '=') == [];
    } else {
      var vs := Sextets(b);
      var tail := if |b| == 1 then "==" else if |b| == 2 then "=" else StdBase64(b[3..]);
      assert StdBase64(b) == Digits(vs, false) + tail;
      UrlSafeConcat(Digits(vs, false), tail);
      UrlSafeDigits(vs);
      if |b| < 3 {
        UrlSafePadding();
        assert UnpaddedUrl(b) == Digits(vs, true) + [];
      } else {
        Base64UrlIsUnpaddedUrl(b[3..]);
      }
    }
  }

  /** Four characters for every three bytes: padded to a multiple of four, or cut after the
      last character that carries bits. */
  lemma {:induction false} EncodeLength(b: seq<byte>, url: bool, pad: bool)
    ensures |Encode(b, url, pad)| == if pad then 4 * ((|b| + 2) / 3) else (4 * |b| + 2) / 3
    decreases |b|
  {
    var n := |b|;
    if n >= 3 {
      EncodeLength(b[3..], url, pad);
      assert |Encode(b, url, pad)| == 4 + |Encode(b[3..], url, pad)|;
      assert (n + 2) / 3 == (n - 3 + 2) / 3 + 1;
      assert (4 * n + 2) / 3 == (4 * (n - 3) + 2) / 3 + 4;
    }
  }

  /** Every character of the unpadded URL-safe encoding is in its alphabet. */
  lemma {:induction false} UrlCharsOnly(b: seq<byte>)
    ensures forall c :: c in UnpaddedUrl(b) ==> Value(c).Some?
    decreases |b|
  {
    if |b| > 0 {
      var vs := Sextets(b);
      var tail := if |b| < 3 then [] else UnpaddedUrl(b[3..]);
      assert UnpaddedUrl(b) == Digits(vs, true) + tail;
      forall i | 0 <= i < |vs| ensures Value(Digits(vs, true)[i]).Some? {
        ValueOfDigit(vs[i], ' ');
      }
      if |b| >= 3 {
        UrlCharsOnly(b[3..]);
      }
    }
  }

  /** `base64url` never writes `=`, `+` or `/`, nor the `.` that separates the parts of a
      token. */
  lemma Base64UrlCharacters(b: seq<byte>)
    ensures '=' !in Base64Url(b) && '+' !in Base64Url(b) && '/' !in Base64Url(b) && '.' !in Base64Url(b)
  {
    Base64UrlIsUnpaddedUrl(b);
    UrlCharsOnly(b);
    assert Value('=').None? && Value('+').None? && Value('/').None? && Value('.').None?;
  }

  // ---------------------------------------------------------------------------
  // Decoding

  /** Decoding of section 5 of RFC 4648 without padding: four characters give three bytes, a
      last group of two or three characters one or two bytes; a lone last character or a
      character outside the alphabet is refused. */
  function Decode(s: string): Option<seq<byte>>
    decreases |s|
  {
    if |s| == 0 then Some([])
    else if |s| == 1 || Value(s[0]).None? || Value(s[1]).None? then None
    else
      var x0, x1 := Value(s[0]).value, Value(s[1]).value;
      if |s| == 2 then Some([x0 * 4 + x1 / 16])
      else if Value(s[2]).None? then None
      else
        var x2 := Value(s[2]).value;
        if |s| == 3 then Some([x0 * 4 + x1 / 16, x1 % 16 * 16 + x2 / 4])
        else if Value(s[3]).None? then None
        else
          var x3 := Value(s[3]).value;
          var rest := Decode(s[4..]);
          if rest.None? then None else Some([x0 * 4 + x1 / 16, x1 % 16 * 16 + x2 / 4, x2 % 4 * 64 + x3] + rest.value)
  }

  /** Each character of a run of safe digits has the digit's value. */
  lemma DigitValues(vs: seq<nat>, rest: string)
    requires forall i :: 0 <= i < |vs| ==> vs[i] < 64
    ensures forall i :: 0 <= i < |vs| ==> Value((Digits(vs, true) + rest)[i]) == Some(vs[i])
  {
    forall i | 0 <= i < |vs| ensures Value((Digits(vs, true) + rest)[i]) == Some(vs[i]) {
      ValueOfDigit(vs[i], ' ');
    }
  }

  /** Decoding a full group of four characters, then the rest. */
  lemma DecodeFour(s: string, vs: seq<nat>)
    requires |s| >= 4 && |vs| == 4 && forall i :: 0 <= i < 4 ==> Value(s[i]) == Some(vs[i])
    ensures var r := Decode(s[4..]);
      Decode(s) == if r.None? then None else Some([vs[0] * 4 + vs[1] / 16, vs[1] % 16 * 16 + vs[2] / 4, vs[2] % 4 * 64 + vs[3]] + r.value)
  {
  }

  /** Decoding a last group of two or three characters. */
  lemma DecodeShort(s: string, vs: seq<nat>)
    requires 2 <= |s| <= 3 && |vs| == |s| && forall i :: 0 <= i < |s| ==> Value(s[i]) == Some(vs[i])
    ensures Decode(s) == Some(if |s| == 2 then [vs[0] * 4 + vs[1] / 16] else [vs[0] * 4 + vs[1] / 16, vs[1] % 16 * 16 + vs[2] / 4])
  {
  }

  /** The bytes of a group come back from its digit values. */
  lemma Regroup(b: seq<byte>)
    requires 1 <= |b|
    ensures var vs := Sextets(b);
      vs[0] * 4 + vs[1] / 16 == b[0]
      && (|b| >= 2 ==> vs[1] % 16 * 16 + vs[2] / 4 == b[1])
      && (|b| >= 3 ==> vs[2] % 4 * 64 + vs[3] == b[2])
  {
  }

  /** A last group of one or two bytes decodes back. */
  lemma DecodeLastGroup(b: seq<byte>)
    requires 1 <= |b| < 3
    ensures Decode(UnpaddedUrl(b)) == Some(b)
  {
    var vs := Sextets(b);
    Regroup(b);
    assert UnpaddedUrl(b) == Digits(vs, true) + [];
    DigitValues(vs, []);
    DecodeShort(UnpaddedUrl(b), vs);
    assert b == if |b| == 1 then [b[0]] else [b[0], b[1]];
  }

  /** A full group decodes back in front of the bytes after it. */
  lemma DecodeGroup(b: seq<byte>)
    requires |b| >= 3 && Decode(UnpaddedUrl(b[3..])) == Some(b[3..])
    ensures Decode(UnpaddedUrl(b)) == Some(b)
  {
    var vs := Sextets(b);
    var s := UnpaddedUrl(b);
    Regroup(b);
    assert s == Digits(vs, true) + UnpaddedUrl(b[3..]);
    DigitValues(vs, UnpaddedUrl(b[3..]));
    assert s[4..] == UnpaddedUrl(b[3..]);
    DecodeFour(s, vs);
    assert b == [b[0], b[1], b[2]] + b[3..];
  }

  /** Decoding the unpadded URL-safe encoding gives the bytes back. */
  lemma {:induction false} DecodeEncode(b: seq<byte>)
    ensures Decode(UnpaddedUrl(b)) == Some(b)
    decreases |b|
  {
    if |b| >= 3 {
      DecodeEncode(b[3..]);
      DecodeGroup(b);
    } else if |b| > 0 {
      DecodeLastGroup(b);
    }
  }

  /** `base64url` is undone by decoding of section 5 of RFC 4648. */
  lemma Base64UrlRoundTrip(b: seq<byte>)
    ensures Decode(Base64Url(b)) == Some(b)
  {
    Base64UrlIsUnpaddedUrl(b);
    DecodeEncode(b);
  }
}
