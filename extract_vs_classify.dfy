/**
 * The extractor of src/core/fetchBridges.js against the classifier of
 * src/core/parse.js: every line the classifier renders in canonical form is
 * found by the extractor, but the extractor is looser, so some of the lines it
 * returns are ones the classifier rejects.
 */
module ExtractVsClassify {
  import opened Wrappers
  import opened Text
  import opened Bridges
  import opened BridgePatterns
  import opened Parse
  import opened FetchBridges

  /** Parts the extractor pattern of `t` accepts in canonical form: any non-space host. */
  predicate ShapeRenderable(t: Transport, host: string, port: string, fingerprint: string, v1: string, v2: string) {
    IsToken(host)
    && |port| > 0 && AllDigits(port)
    && |fingerprint| == 40 && (forall i :: 0 <= i < 40 ==> InClass(fingerprint[i], UpperHex))
    && IsToken(v1)
    && |v2| > 0 && (forall i :: 0 <= i < |v2| ==> InClass(v2[i], ShapeOf(t).last))
  }

  /** The cuts of the extractor pattern in a line in canonical form. */
  function RenderShapeCuts(parts: seq<string>): ShapeCuts
    requires |parts| == 13
  {
    ShapeCuts(Offset(parts, 3), Offset(parts, 5), Offset(parts, 10), Offset(parts, 13))
  }

  /** Two neighbouring parts sit together in the concatenation. */
  lemma TwoPieces(parts: seq<string>, k: nat)
    requires k + 1 < |parts|
    ensures Offset(parts, k) <= Offset(parts, k + 1) <= Offset(parts, k + 2) <= |Concat(parts)|
    ensures Concat(parts)[Offset(parts, k)..Offset(parts, k + 2)] == parts[k] + parts[k + 1]
  {
    var s := Concat(parts);
    ConcatPiece(parts, k);
    ConcatPiece(parts, k + 1);
    assert s[Offset(parts, k)..Offset(parts, k + 2)] == s[Offset(parts, k)..Offset(parts, k + 1)] + s[Offset(parts, k + 1)..Offset(parts, k + 2)];
  }

  lemma RenderHostPort(t: Transport, host: string, port: string, fingerprint: string, v1: string, v2: string)
    requires ShapeRenderable(t, host, port, fingerprint, v1, v2)
    ensures var parts := RenderParts(t, host, port, fingerprint, v1, v2); var c := RenderShapeCuts(parts);
      HostPortAt(ShapeOf(t), Concat(parts), 0, c.colon, c.portEnd)
  {
    var parts := RenderParts(t, host, port, fingerprint, v1, v2);
    assert ShapeOf(t).head == parts[0] + parts[1];
    PartsHostPort(ShapeOf(t).head, parts);
  }

  /** `HEAD\S+:\d+ ` in a concatenation: the head as parts 0 and 1, then a non-space part,
      a colon, a digit part and a space. */
  lemma PartsHostPort(head: string, parts: seq<string>)
    requires |parts| == 13 && head == parts[0] + parts[1]
    requires IsToken(parts[2]) && parts[3] == ":" && |parts[4]| > 0 && AllDigits(parts[4]) && parts[5] == " "
    ensures LitAt(Concat(parts), 0, head)
    ensures |head| < Offset(parts, 3) && Offset(parts, 3) + 1 < Offset(parts, 5) < |Concat(parts)|
    ensures AllIn(Concat(parts), |head|, Offset(parts, 3), NonSpace) && Concat(parts)[Offset(parts, 3)] == ':'
    ensures AllIn(Concat(parts), Offset(parts, 3) + 1, Offset(parts, 5), Digit) && Concat(parts)[Offset(parts, 5)] == ' '
  {
    var s := Concat(parts);
    TwoPieces(parts, 0);
    ConcatPiece(parts, 2);
    ConcatPiece(parts, 3);
    ConcatPiece(parts, 4);
    ConcatPiece(parts, 5);
    assert s[Offset(parts, 3)] == parts[3][0];
    assert s[Offset(parts, 5)] == parts[5][0];
    AllInText(s, Offset(parts, 2), Offset(parts, 3), NonSpace, parts[2]);
    AllInText(s, Offset(parts, 3) + 1, Offset(parts, 5), Digit, parts[4]);
  }

  lemma RenderTail(t: Transport, host: string, port: string, fingerprint: string, v1: string, v2: string)
    requires ShapeRenderable(t, host, port, fingerprint, v1, v2)
    ensures var parts := RenderParts(t, host, port, fingerprint, v1, v2); var c := RenderShapeCuts(parts);
      TailAt(ShapeOf(t), Concat(parts), c.portEnd, c.v1End, c.end)
  {
    var parts := RenderParts(t, host, port, fingerprint, v1, v2);
    var s := Concat(parts);
    var c := RenderShapeCuts(parts);
    var pat := ShapeOf(t);
    RenderFingerprintKey(t, host, port, fingerprint, v1, v2);
    RenderShapeValues(t, host, port, fingerprint, v1, v2);
  }

  lemma RenderFingerprintKey(t: Transport, host: string, port: string, fingerprint: string, v1: string, v2: string)
    requires ShapeRenderable(t, host, port, fingerprint, v1, v2)
    ensures var parts := RenderParts(t, host, port, fingerprint, v1, v2); var c := RenderShapeCuts(parts);
      c.portEnd + 41 + |ShapeOf(t).key1| == Offset(parts, 9) <= |Concat(parts)|
      && AllIn(Concat(parts), c.portEnd + 1, c.portEnd + 41, UpperHex)
      && LitAt(Concat(parts), c.portEnd + 41, ShapeOf(t).key1)
  {
    var parts := RenderParts(t, host, port, fingerprint, v1, v2);
    assert ShapeOf(t).key1 == parts[7] + parts[8];
    PartsFingerprintKey(ShapeOf(t).key1, parts);
  }

  /** `[A-F0-9]{40}KEY1` in a concatenation: a space, 40 upper-case hex digits, then the key as
      parts 7 and 8. */
  lemma PartsFingerprintKey(key1: string, parts: seq<string>)
    requires |parts| == 13 && parts[5] == " " && key1 == parts[7] + parts[8]
    requires |parts[6]| == 40 && forall i :: 0 <= i < 40 ==> InClass(parts[6][i], UpperHex)
    ensures Offset(parts, 5) + 41 + |key1| == Offset(parts, 9) <= |Concat(parts)|
    ensures AllIn(Concat(parts), Offset(parts, 5) + 1, Offset(parts, 5) + 41, UpperHex)
    ensures LitAt(Concat(parts), Offset(parts, 5) + 41, key1)
  {
    var s := Concat(parts);
    ConcatPiece(parts, 5);
    ConcatPiece(parts, 6);
    TwoPieces(parts, 7);
    AllInText(s, Offset(parts, 5) + 1, Offset(parts, 5) + 41, UpperHex, parts[6]);
  }

  lemma RenderShapeValues(t: Transport, host: string, port: string, fingerprint: string, v1: string, v2: string)
    requires ShapeRenderable(t, host, port, fingerprint, v1, v2)
    ensures var parts := RenderParts(t, host, port, fingerprint, v1, v2); var c := RenderShapeCuts(parts);
      Offset(parts, 9) < c.v1End <= |Concat(parts)|
      && AllIn(Concat(parts), Offset(parts, 9), c.v1End, NonSpace)
      && LitAt(Concat(parts), c.v1End, ShapeOf(t).key2)
      && c.v1End + |ShapeOf(t).key2| < c.end == |Concat(parts)|
      && AllIn(Concat(parts), c.v1End + |ShapeOf(t).key2|, c.end, ShapeOf(t).last)
  {
    var parts := RenderParts(t, host, port, fingerprint, v1, v2);
    assert ShapeOf(t).key2 == parts[10] + parts[11];
    PartsValues(ShapeOf(t).key2, ShapeOf(t).last, parts);
  }

  /** `\S+KEY2LAST+` in a concatenation: a non-space part, the key as parts 10 and 11, then a
      last part of class `last` that ends the text. */
  lemma PartsValues(key2: string, last: CharClass, parts: seq<string>)
    requires |parts| == 13 && IsToken(parts[9]) && key2 == parts[10] + parts[11]
    requires |parts[12]| > 0 && forall i :: 0 <= i < |parts[12]| ==> InClass(parts[12][i], last)
    ensures Offset(parts, 9) < Offset(parts, 10) <= |Concat(parts)|
    ensures AllIn(Concat(parts), Offset(parts, 9), Offset(parts, 10), NonSpace)
    ensures LitAt(Concat(parts), Offset(parts, 10), key2)
    ensures Offset(parts, 10) + |key2| < Offset(parts, 13) == |Concat(parts)|
    ensures AllIn(Concat(parts), Offset(parts, 10) + |key2|, Offset(parts, 13), last)
  {
    var s := Concat(parts);
    ConcatLength(parts);
    ConcatPiece(parts, 9);
    TwoPieces(parts, 10);
    ConcatPiece(parts, 12);
    AllInText(s, Offset(parts, 9), Offset(parts, 10), NonSpace, parts[9]);
    AllInText(s, Offset(parts, 12), Offset(parts, 13), last, parts[12]);
  }

  /** A line in canonical form whose host has no spaces is returned by the extractor. */
  lemma RenderIsExtracted(t: Transport, host: string, port: string, fingerprint: string, v1: string, v2: string)
    requires ShapeRenderable(t, host, port, fingerprint, v1, v2)
    ensures var line := Render(t, host, port, fingerprint, v1, v2);
      line in Extracted(Some(line))
  {
    var parts := RenderParts(t, host, port, fingerprint, v1, v2);
    var s := Concat(parts);
    var c := RenderShapeCuts(parts);
    var pat := ShapeOf(t);
    RenderHostPort(t, host, port, fingerprint, v1, v2);
    RenderTail(t, host, port, fingerprint, v1, v2);
    ShapeMatchAtComplete(pat, s, 0, c);
    ConcatLength(parts);
    assert FirstShapeMatch(pat, s, 0) == Some((0, c));
    assert s[0..c.end] == s;
    assert s in Found(pat, s, 0);
  }

  /** Character `k` of a concatenation comes from part `i`. */
  lemma ConcatCharOrigin(parts: seq<string>, k: nat) returns (i: nat)
    requires k < |Concat(parts)|
    ensures i < |parts| && Offset(parts, i) <= k < Offset(parts, i + 1)
    ensures Concat(parts)[k] == parts[i][k - Offset(parts, i)]
  {
    ConcatLength(parts);
    i := 0;
    while Offset(parts, i + 1) <= k
      invariant i < |parts| && Offset(parts, i) <= k
      decreases |parts| - i
    {
      i := i + 1;
    }
    ConcatPiece(parts, i);
  }

  /** An accepted host ends in `]` or in a digit. */
  lemma HostLastChar(s: string, i: nat, j: nat)
    requires i <= j <= |s| && HostAt(s, i, j)
    ensures i < j && (s[j - 1] == ']' || IsDigit(s[j - 1]))
  {
    if !BracketedAt(s, i, j) {
      DottedLastChar(s, i, j, 4);
    }
  }

  /** Dotted groups end in a digit. */
  lemma {:induction false} DottedLastChar(s: string, i: nat, j: nat, n: nat)
    requires i <= j <= |s| && DottedAt(s, i, j, n)
    ensures i < j && IsDigit(s[j - 1])
    decreases n
  {
    var k := if GroupAt(s, i, i + 1, j, n) then i + 1 else if GroupAt(s, i, i + 2, j, n) then i + 2 else i + 3;
    assert GroupAt(s, i, k, j, n);
    if n > 1 {
      DottedLastChar(s, k + 1, j, n - 1);
    }
  }

  /** In a line in canonical form whose host and values hold no colon, the colon before the port
      is the only one. */
  lemma OnlyColon(t: Transport, host: string, port: string, fingerprint: string, v1: string, v2: string)
    requires ShapeRenderable(t, host, port, fingerprint, v1, v2)
    requires ':' !in host && ':' !in v1 && ':' !in v2
    ensures var parts := RenderParts(t, host, port, fingerprint, v1, v2);
      forall k :: 0 <= k < |Concat(parts)| && Concat(parts)[k] == ':' ==> k == Offset(parts, 3)
  {
    var parts := RenderParts(t, host, port, fingerprint, v1, v2);
    var s := Concat(parts);
    assert ':' !in fingerprint by {
      forall m | 0 <= m < 40 ensures fingerprint[m] != ':' {
        assert InClass(fingerprint[m], UpperHex);
      }
    }
    assert ':' !in port by {
      forall m | 0 <= m < |port| ensures port[m] != ':' {
        assert IsDigit(port[m]);
      }
    }
    KeysHaveNoColon(t);
    forall k | 0 <= k < |s| && s[k] == ':'
      ensures k == Offset(parts, 3)
    {
      ColonInPart(parts, 3, k);
    }
  }

  /** The transport word and the keys hold no colon. */
  lemma KeysHaveNoColon(t: Transport)
    ensures ':' !in t.Token() && ':' !in PatternOf(t).key1 && ':' !in PatternOf(t).key2
  {
    match t
    case Obfs4 =>
      assert ':' !in "obfs4";
      assert ':' !in " cert=";
      assert ':' !in " iat-mode=";
    case Webtunnel =>
      assert ':' !in "webtunnel";
      assert ':' !in " url=";
      assert ':' !in " ver=";
  }

  /** Where no part but the one-character part `j` holds a colon, every colon of the
      concatenation is that part. */
  lemma ColonInPart(parts: seq<string>, j: nat, k: nat)
    requires j < |parts| && |parts[j]| == 1
    requires forall i :: 0 <= i < |parts| && i != j ==> ':' !in parts[i]
    requires k < |Concat(parts)| && Concat(parts)[k] == ':'
    ensures k == Offset(parts, j)
  {
    var i := ConcatCharOrigin(parts, k);
    assert parts[i][k - Offset(parts, i)] in parts[i];
  }

  /** A line the extractor returns need not be one the classifier accepts: with a host name
      (no colon, ending in neither `]` nor a digit) the classifier's host pattern cannot match. */
  lemma HostNameIsExtractedButNotClassified(t: Transport, host: string, port: string, fingerprint: string, v1: string, v2: string, addedAt: string)
    requires ShapeRenderable(t, host, port, fingerprint, v1, v2)
    requires ':' !in host && ':' !in v1 && ':' !in v2
    requires host[|host| - 1] != ']' && !IsDigit(host[|host| - 1])
    ensures var line := Render(t, host, port, fingerprint, v1, v2);
      line in Extracted(Some(line)) && ParseAndClassifyBridge(line, addedAt) == None
  {
    RenderIsExtracted(t, host, port, fingerprint, v1, v2);
    ShapeRenderIsTrimmed(t, host, port, fingerprint, v1, v2);
    HostNameNoLineMatch(t, host, port, fingerprint, v1, v2);
    RejectedWithoutMatch(Render(t, host, port, fingerprint, v1, v2), addedAt, t);
  }

  /** A trimmed line whose token names a transport whose pattern matches nowhere is rejected. */
  lemma RejectedWithoutMatch(line: string, addedAt: string, t: Transport)
    requires Trim(line) == line && FirstToken(line) == t.Token()
    requires forall q: nat, c: LineCuts :: !IsLineMatch(PatternOf(t), line, q, c)
    ensures ParseAndClassifyBridge(line, addedAt) == None
  {
    AcceptedIffPatternMatches(line, addedAt, t);
  }

  /** A line in canonical form is trimmed and starts with its transport's token. */
  lemma ShapeRenderIsTrimmed(t: Transport, host: string, port: string, fingerprint: string, v1: string, v2: string)
    requires ShapeRenderable(t, host, port, fingerprint, v1, v2)
    ensures var s := Render(t, host, port, fingerprint, v1, v2);
      Trim(s) == s && FirstToken(s) == t.Token()
  {
    assert InClass(v2[|v2| - 1], ShapeOf(t).last);
    RenderIsTrimmed(t, host, port, fingerprint, v1, v2);
  }

  /** In a line in canonical form with a host name, the classifier pattern matches nowhere. */
  lemma HostNameNoLineMatch(t: Transport, host: string, port: string, fingerprint: string, v1: string, v2: string)
    requires ShapeRenderable(t, host, port, fingerprint, v1, v2)
    requires ':' !in host && ':' !in v1 && ':' !in v2
    requires host[|host| - 1] != ']' && !IsDigit(host[|host| - 1])
    ensures forall q: nat, c: LineCuts :: !IsLineMatch(PatternOf(t), Render(t, host, port, fingerprint, v1, v2), q, c)
  {
    var parts := RenderParts(t, host, port, fingerprint, v1, v2);
    var s := Concat(parts);
    OnlyColon(t, host, port, fingerprint, v1, v2);
    ConcatPiece(parts, 2);
    ConcatPiece(parts, 3);
    assert s[Offset(parts, 3) - 1] == host[|host| - 1];
    NoLineMatchWithoutHostEnd(PatternOf(t), s, Offset(parts, 3));
  }

  /** Where the only colon of `s` follows neither `]` nor a digit, the classifier pattern matches
      nowhere: the host must end in one of those right before a colon. */
  lemma NoLineMatchWithoutHostEnd(pat: LinePattern, s: string, colon: nat)
    requires 0 < colon <= |s| && s[colon - 1] != ']' && !IsDigit(s[colon - 1])
    requires forall k :: 0 <= k < |s| && s[k] == ':' ==> k == colon
    ensures forall q: nat, c: LineCuts :: !IsLineMatch(pat, s, q, c)
  {
    forall q: nat, c: LineCuts
      ensures !IsLineMatch(pat, s, q, c)
    {
      if IsLineMatch(pat, s, q, c) {
        HostLastChar(s, c.host, c.hostEnd);
      }
    }
  }
}
