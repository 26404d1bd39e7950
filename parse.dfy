/**
 * The line classifier of src/core/parse.js: a bridge line is trimmed, its first
 * space-separated token picks the transport, and the transport's pattern is
 * matched anywhere in the line to pull out host, port, fingerprint and the two
 * transport fields. The category is the transport plus `_ipv6` when the host,
 * brackets removed, holds a colon.
 */
module Parse {
  import opened Wrappers
  import opened Text
  import opened Bridges
  import opened BridgePatterns

  /** `isIPv6`: the address holds a colon. */
  predicate IsIPv6(address: string) {
    ':' in address
  }

  /** `ip.replace(/[\[\]]/g, "")`. */
  function RemoveBrackets(s: string): (r: string)
    ensures '[' !in r && ']' !in r
    ensures forall ch :: ch in r <==> ch in s && ch != '[' && ch != ']'
  {
    if s == [] then []
    else (if s[0] == '[' || s[0] == ']' then [] else [s[0]]) + RemoveBrackets(s[1..])
  }

  /** Removing brackets from a concatenation removes them from each part. */
  lemma {:induction false} RemoveBracketsAppend(a: string, b: string)
    ensures RemoveBrackets(a + b) == RemoveBrackets(a) + RemoveBrackets(b)
  {
    if a == [] {
      assert a + b == b;
    } else {
      assert (a + b)[0] == a[0];
      assert (a + b)[1..] == a[1..] + b;
      RemoveBracketsAppend(a[1..], b);
    }
  }

  /** A bracket-free host is left as it is. */
  lemma {:induction false} RemoveBracketsOfPlain(x: string)
    requires '[' !in x && ']' !in x
    ensures RemoveBrackets(x) == x
  {
    if x != [] {
      assert x[0] in x;
      assert forall ch :: ch in x[1..] ==> ch in x;
      RemoveBracketsOfPlain(x[1..]);
    }
  }

  /** A bracketed host loses just its brackets. */
  lemma RemoveBracketsOfBracketed(x: string)
    requires '[' !in x && ']' !in x
    ensures RemoveBrackets(['['] + x + [']']) == x
  {
    var s := ['['] + x + [']'];
    assert s[0] == '[' && s[1..] == x + [']'];
    RemoveBracketsAppend(x, [']']);
    RemoveBracketsOfPlain(x);
    assert [']'][1..] == [];
  }

  /** `line.split(" ")[0]`. */
  function FirstToken(line: string): string {
    Split(line, ' ')[0]
  }

  /** The classifier pattern of a transport. */
  function PatternOf(t: Transport): (pat: LinePattern)
    ensures pat.Valid() && pat.word == t.Token()
  {
    match t
    case Obfs4 => Obfs4Line
    case Webtunnel => WebtunnelLine
  }

  /** The non-empty run of non-space characters `s`. */
  predicate IsToken(s: string) {
    |s| > 0 && forall i :: 0 <= i < |s| ==> !IsSpace(s[i])
  }

  /** The cuts lie in order inside a line of length `n`, the keys of `t` fitting where they go. */
  predicate CutsInOrder(t: Transport, c: LineCuts, n: nat) {
    c.host <= c.hostEnd < c.portEnd <= c.fp && c.fp + 40 <= c.key1 <= c.v1End <= c.key2 <= c.end <= n
    && c.key1 + |PatternOf(t).key1| <= c.v1End && c.key2 + |PatternOf(t).key2| <= c.end
  }

  /** The record built from the match of `t`'s pattern with parts at `c`. */
  function Build(t: Transport, line: string, c: LineCuts, addedAt: string): Classified
    requires CutsInOrder(t, c, |line|)
  {
    var ip := RemoveBrackets(line[c.host..c.hostEnd]);
    var fingerprint := line[c.fp..c.fp + 40];
    var v1 := line[c.key1 + |PatternOf(t).key1|..c.v1End];
    var v2 := line[c.key2 + |PatternOf(t).key2|..c.end];
    Classified(
      Category(t, IsIPv6(ip)),
      fingerprint,
      BridgeData(line, ip, line[c.hostEnd + 1..c.portEnd], fingerprint,
        if t == Obfs4 then Obfs4Fields(v1, v2) else WebtunnelFields(v1, v2), addedAt))
  }

  /** `parseAndClassifyBridge`, with the timestamp passed in. A line whose first token is
      neither transport is refused; an accepted line gives a record whose `bridge` is the
      trimmed line, whose category names the line's transport and is `_ipv6` exactly when
      the bracket-free host holds a colon, whose port is digits and whose fingerprint is
      40 upper-case hex digits. */
  function ParseAndClassifyBridge(bridgeLine: string, addedAt: string): (r: Option<Classified>)
    ensures FirstToken(Trim(bridgeLine)) != "obfs4" && FirstToken(Trim(bridgeLine)) != "webtunnel" ==> r.None?
    ensures r.Some? ==> r.value.cat.transport.Token() == FirstToken(Trim(bridgeLine))
    ensures r.Some? ==> WellFormed(r.value, r.value.cat.transport, Trim(bridgeLine), addedAt)
  {
    var line := Trim(bridgeLine);
    var token := FirstToken(line);
    if token != "obfs4" && token != "webtunnel" then None
    else
      var t := if token == "obfs4" then Obfs4 else Webtunnel;
      var m := FirstLineMatch(PatternOf(t), line, 0);
      if m.None? then None
      else
        BuildIsWellFormed(t, line, m.value.0, m.value.1, addedAt);
        Some(Build(t, line, m.value.1, addedAt))
  }

  /** The record built from a match has the shape the classifier promises. */
  lemma BuildIsWellFormed(t: Transport, line: string, p: nat, c: LineCuts, addedAt: string)
    requires IsLineMatch(PatternOf(t), line, p, c)
    ensures WellFormed(Build(t, line, c, addedAt), t, line, addedAt)
  {
    BuildHostPort(t, line, p, c, addedAt);
    BuildFields(t, line, c, addedAt);
  }

  /** The host, port and fingerprint of the record built from a match. */
  lemma BuildHostPort(t: Transport, line: string, p: nat, c: LineCuts, addedAt: string)
    requires IsLineMatch(PatternOf(t), line, p, c)
    ensures var r := Build(t, line, c, addedAt);
      '[' !in r.data.ip && ']' !in r.data.ip && |r.data.ip| > 0
      && |r.data.port| > 0 && AllDigits(r.data.port)
      && r.fingerprint == r.data.fingerprint && |r.fingerprint| == 40
      && (forall i :: 0 <= i < 40 ==> InClass(r.fingerprint[i], UpperHex))
  {
    HostKeepsACharacter(line, c.host, c.hostEnd);
    var r := Build(t, line, c, addedAt);
    assert r.data.port == line[c.hostEnd + 1..c.portEnd];
    assert r.fingerprint == line[c.fp..c.fp + 40];
  }

  /** The transport fields of the record built from a match. */
  lemma BuildFields(t: Transport, line: string, c: LineCuts, addedAt: string)
    requires CutsInOrder(t, c, |line|) && ValuesAt(PatternOf(t), line, c.key1, c.v1End, c.key2, c.end)
    ensures var r := Build(t, line, c, addedAt);
      (t == Obfs4 ==>
          r.data.fields.Obfs4Fields? && IsToken(r.data.fields.cert)
          && |r.data.fields.iatMode| > 0 && AllDigits(r.data.fields.iatMode))
      && (t == Webtunnel ==>
          r.data.fields.WebtunnelFields? && IsToken(r.data.fields.url) && IsToken(r.data.fields.ver))
  {
    var pat := PatternOf(t);
    var v1 := line[c.key1 + |pat.key1|..c.v1End];
    var v2 := line[c.key2 + |pat.key2|..c.end];
    assert Build(t, line, c, addedAt).data.fields == if t == Obfs4 then Obfs4Fields(v1, v2) else WebtunnelFields(v1, v2);
    ValuesText(pat, line, c.key1, c.v1End, c.key2, c.end);
  }

  /** The two values a match of `KEY1\S+\s+KEY2LAST+` cuts out: a token, and a non-empty run
      of the last class. */
  lemma ValuesText(pat: LinePattern, s: string, key1: nat, v1End: nat, key2: nat, end: nat)
    requires ValuesAt(pat, s, key1, v1End, key2, end)
    ensures IsToken(s[key1 + |pat.key1|..v1End])
    ensures var v2 := s[key2 + |pat.key2|..end]; |v2| > 0 && forall i :: 0 <= i < |v2| ==> InClass(v2[i], pat.last)
  {
    var v1 := s[key1 + |pat.key1|..v1End];
    var v2 := s[key2 + |pat.key2|..end];
    forall i | 0 <= i < |v1| ensures !IsSpace(v1[i]) {
      assert v1[i] == s[key1 + |pat.key1| + i];
    }
    forall i | 0 <= i < |v2| ensures InClass(v2[i], pat.last) {
      assert v2[i] == s[key2 + |pat.key2| + i];
    }
  }

  /** What an accepted record looks like: the trimmed line as `bridge`, transport `t`, a
      category that is `_ipv6` exactly when the bracket-free host holds a colon, a digit port,
      a 40-digit upper-case hex fingerprint and the transport's two fields. */
  predicate WellFormed(r: Classified, t: Transport, line: string, addedAt: string) {
    r.data.bridge == line && r.data.addedAt == addedAt
    && r.cat.transport == t
    && (r.cat.ipv6 <==> IsIPv6(r.data.ip))
    && '[' !in r.data.ip && ']' !in r.data.ip && |r.data.ip| > 0
    && |r.data.port| > 0 && AllDigits(r.data.port)
    && r.fingerprint == r.data.fingerprint && |r.fingerprint| == 40
    && (forall i :: 0 <= i < 40 ==> InClass(r.fingerprint[i], UpperHex))
    && (t == Obfs4 ==>
          r.data.fields.Obfs4Fields? && IsToken(r.data.fields.cert)
          && |r.data.fields.iatMode| > 0 && AllDigits(r.data.fields.iatMode))
    && (t == Webtunnel ==>
          r.data.fields.WebtunnelFields? && IsToken(r.data.fields.url) && IsToken(r.data.fields.ver))
  }

  /** A host the classifier accepts keeps at least one character once its brackets are gone. */
  lemma HostKeepsACharacter(s: string, i: nat, j: nat)
    requires i <= j <= |s| && HostAt(s, i, j)
    ensures |RemoveBrackets(s[i..j])| > 0
  {
    var h := s[i..j];
    if BracketedAt(s, i, j) {
      assert h[1] == s[i + 1] && InClass(s[i + 1], HexOrColon);
      assert h[1] in h;
    } else {
      assert GroupAt(s, i, i + 1, j, 4) || GroupAt(s, i, i + 2, j, 4) || GroupAt(s, i, i + 3, j, 4);
      assert IsDigit(s[i]) && h[0] == s[i];
      assert h[0] in h;
    }
  }

  /** A line whose first token names a transport is accepted exactly when that transport's
      pattern matches somewhere in the trimmed line: extra text around the match is tolerated. */
  lemma AcceptedIffPatternMatches(bridgeLine: string, addedAt: string, t: Transport)
    requires FirstToken(Trim(bridgeLine)) == t.Token()
    ensures ParseAndClassifyBridge(bridgeLine, addedAt).Some? <==>
      exists q: nat, c: LineCuts :: IsLineMatch(PatternOf(t), Trim(bridgeLine), q, c)
  {
    var line := Trim(bridgeLine);
    if ParseAndClassifyBridge(bridgeLine, addedAt).Some? {
      var m := AcceptedHasMatch(bridgeLine, addedAt, t);
      assert IsLineMatch(PatternOf(t), line, m.0, m.1);
    }
    if exists q: nat, c: LineCuts :: IsLineMatch(PatternOf(t), line, q, c) {
      var q: nat, c: LineCuts :| IsLineMatch(PatternOf(t), line, q, c);
      MatchIsAccepted(bridgeLine, addedAt, t, q, c);
    }
  }

  /** An accepted line holds a match of its transport's pattern: the leftmost one. */
  lemma AcceptedHasMatch(bridgeLine: string, addedAt: string, t: Transport) returns (m: (nat, LineCuts))
    requires FirstToken(Trim(bridgeLine)) == t.Token()
    requires ParseAndClassifyBridge(bridgeLine, addedAt).Some?
    ensures IsLineMatch(PatternOf(t), Trim(bridgeLine), m.0, m.1)
  {
    assert (if t.Token() == "obfs4" then Obfs4 else Webtunnel) == t;
    var r := FirstLineMatch(PatternOf(t), Trim(bridgeLine), 0);
    assert r.Some?;
    m := r.value;
  }

  /** A line holding a match of its transport's pattern is accepted. */
  lemma MatchIsAccepted(bridgeLine: string, addedAt: string, t: Transport, q: nat, c: LineCuts)
    requires FirstToken(Trim(bridgeLine)) == t.Token()
    requires IsLineMatch(PatternOf(t), Trim(bridgeLine), q, c)
    ensures ParseAndClassifyBridge(bridgeLine, addedAt).Some?
  {
    assert (if t.Token() == "obfs4" then Obfs4 else Webtunnel) == t;
    FirstLineMatchIsLeftmost(PatternOf(t), Trim(bridgeLine), q, c);
  }

  /** Classifying a line and classifying its trim give the same result. */
  lemma ParseOfTrim(bridgeLine: string, addedAt: string)
    ensures ParseAndClassifyBridge(Trim(bridgeLine), addedAt) == ParseAndClassifyBridge(bridgeLine, addedAt)
  {
    TrimIdempotent(bridgeLine);
  }

  /** A line whose leftmost match has a dotted host is classified `_ipv4`, with the host as ip. */
  lemma DottedHostIsIPv4(bridgeLine: string, addedAt: string, t: Transport, q: nat, c: LineCuts)
    requires FirstToken(Trim(bridgeLine)) == t.Token()
    requires FirstLineMatch(PatternOf(t), Trim(bridgeLine), 0) == Some((q, c))
    requires c.host <= c.hostEnd <= |Trim(bridgeLine)| && DottedAt(Trim(bridgeLine), c.host, c.hostEnd, 4)
    ensures ParseAndClassifyBridge(bridgeLine, addedAt).Some?
    ensures ParseAndClassifyBridge(bridgeLine, addedAt).value.cat == Category(t, false)
    ensures ParseAndClassifyBridge(bridgeLine, addedAt).value.data.ip == Trim(bridgeLine)[c.host..c.hostEnd]
  {
    var line := Trim(bridgeLine);
    var h := line[c.host..c.hostEnd];
    ParseOfFirstMatch(t, bridgeLine, q, c, addedAt);
    var r := Build(t, line, c, addedAt);
    assert r.data.ip == RemoveBrackets(h) && r.cat == Category(t, IsIPv6(RemoveBrackets(h)));
    DottedHostText(line, c.host, c.hostEnd);
  }

  /** The text of a dotted host has no bracket and no colon. */
  lemma DottedHostText(s: string, i: nat, j: nat)
    requires i <= j <= |s| && DottedAt(s, i, j, 4)
    ensures RemoveBrackets(s[i..j]) == s[i..j] && !IsIPv6(s[i..j])
  {
    var h := s[i..j];
    DottedChars(s, i, j, 4);
    assert forall m :: 0 <= m < |h| ==> h[m] == s[i + m];
    assert '[' !in h && ']' !in h && ':' !in h;
    RemoveBracketsOfPlain(h);
  }

  // ---------------------------------------------------------------------------
  // Lines in canonical form

  /** The pieces of a bridge line in the form bridge distributors print: the transport, the
      host, `:` and port, the fingerprint, then the two `key=value` fields, separated by single
      spaces. */
  function RenderParts(t: Transport, host: string, port: string, fingerprint: string, v1: string, v2: string): seq<string> {
    [t.Token(), " ", host, ":", port, " ", fingerprint, " ", PatternOf(t).key1, v1, " ", PatternOf(t).key2, v2]
  }

  /** A bridge line in canonical form. */
  function Render(t: Transport, host: string, port: string, fingerprint: string, v1: string, v2: string): string {
    Concat(RenderParts(t, host, port, fingerprint, v1, v2))
  }

  /** Parts that the transport's pattern accepts: a bracketed or dotted host, a digit port,
      a 40-digit upper-case hex fingerprint, a non-space first value and a second value of the
      pattern's last class. */
  predicate Renderable(t: Transport, host: string, port: string, fingerprint: string, v1: string, v2: string) {
    HostAt(host, 0, |host|)
    && |port| > 0 && AllDigits(port)
    && |fingerprint| == 40 && (forall i :: 0 <= i < 40 ==> InClass(fingerprint[i], UpperHex))
    && IsToken(v1)
    && |v2| > 0 && (forall i :: 0 <= i < |v2| ==> InClass(v2[i], PatternOf(t).last))
  }

  /** The cut positions of a line in canonical form. */
  function RenderCuts(parts: seq<string>): LineCuts
    requires |parts| == 13
  {
    LineCuts(Offset(parts, 2), Offset(parts, 3), Offset(parts, 5), Offset(parts, 6),
             Offset(parts, 8), Offset(parts, 10), Offset(parts, 11), Offset(parts, 13))
  }

  /** The pattern matches a line in canonical form at its start, with the parts where they were put. */
  lemma RenderMatches(t: Transport, host: string, port: string, fingerprint: string, v1: string, v2: string)
    requires Renderable(t, host, port, fingerprint, v1, v2)
    ensures var parts := RenderParts(t, host, port, fingerprint, v1, v2);
      IsLineMatch(PatternOf(t), Concat(parts), 0, RenderCuts(parts))
  {
    var parts := RenderParts(t, host, port, fingerprint, v1, v2);
    var c := RenderCuts(parts);
    RenderHead(t, host, port, fingerprint, v1, v2);
    RenderPortFingerprint(t, host, port, fingerprint, v1, v2);
    RenderValues(t, host, port, fingerprint, v1, v2);
  }

  lemma RenderHead(t: Transport, host: string, port: string, fingerprint: string, v1: string, v2: string)
    requires Renderable(t, host, port, fingerprint, v1, v2)
    ensures var parts := RenderParts(t, host, port, fingerprint, v1, v2); var c := RenderCuts(parts);
      HeadAt(PatternOf(t), Concat(parts), 0, c.host, c.hostEnd)
  {
    var parts := RenderParts(t, host, port, fingerprint, v1, v2);
    var s := Concat(parts);
    var c := RenderCuts(parts);
    var word := PatternOf(t).word;
    ConcatPiece(parts, 3);
    assert c.host == |word| + 1 && c.hostEnd == c.host + |host| && c.hostEnd + 1 <= |s|;
    assert LitAt(s, 0, word) by {
      ConcatPiece(parts, 0);
    }
    assert AllIn(s, |word|, c.host, Space) by {
      ConcatPiece(parts, 1);
      assert s[|word|] == parts[1][0];
    }
    assert HostAt(s, c.host, c.hostEnd) by {
      ConcatPiece(parts, 2);
      HostAtSlice(s, c.host, c.hostEnd);
    }
    assert s[c.hostEnd] == parts[3][0];
  }

  lemma RenderPortFingerprint(t: Transport, host: string, port: string, fingerprint: string, v1: string, v2: string)
    requires Renderable(t, host, port, fingerprint, v1, v2)
    ensures var parts := RenderParts(t, host, port, fingerprint, v1, v2); var c := RenderCuts(parts);
      PortFingerprintAt(Concat(parts), c.hostEnd, c.portEnd, c.fp, c.key1)
  {
    var parts := RenderParts(t, host, port, fingerprint, v1, v2);
    var s := Concat(parts);
    var c := RenderCuts(parts);
    ConcatPiece(parts, 4);
    ConcatPiece(parts, 5);
    ConcatPiece(parts, 6);
    ConcatPiece(parts, 7);
    assert c.fp == c.portEnd + 1 && c.key1 == c.fp + 41;
    AllInText(s, c.hostEnd + 1, c.portEnd, Digit, port);
    AllInText(s, c.portEnd, c.fp, Space, " ");
    AllInText(s, c.fp, c.fp + 40, UpperHex, fingerprint);
    AllInText(s, c.fp + 40, c.key1, Space, " ");
  }

  lemma RenderValues(t: Transport, host: string, port: string, fingerprint: string, v1: string, v2: string)
    requires Renderable(t, host, port, fingerprint, v1, v2)
    ensures var parts := RenderParts(t, host, port, fingerprint, v1, v2); var c := RenderCuts(parts); var s := Concat(parts);
      ValuesAt(PatternOf(t), s, c.key1, c.v1End, c.key2, c.end)
  {
    RenderFirstValue(t, host, port, fingerprint, v1, v2);
    RenderSecondValue(t, host, port, fingerprint, v1, v2);
  }

  /** The first key, its value and the spaces after it. */
  lemma RenderFirstValue(t: Transport, host: string, port: string, fingerprint: string, v1: string, v2: string)
    requires Renderable(t, host, port, fingerprint, v1, v2)
    ensures var parts := RenderParts(t, host, port, fingerprint, v1, v2); var c := RenderCuts(parts); var s := Concat(parts);
      LitAt(s, c.key1, PatternOf(t).key1)
      && c.key1 + |PatternOf(t).key1| < c.v1End < c.key2 <= |s|
      && AllIn(s, c.key1 + |PatternOf(t).key1|, c.v1End, NonSpace)
      && AllIn(s, c.v1End, c.key2, Space)
  {
    var parts := RenderParts(t, host, port, fingerprint, v1, v2);
    var s := Concat(parts);
    var c := RenderCuts(parts);
    ConcatPiece(parts, 8);
    ConcatPiece(parts, 9);
    ConcatPiece(parts, 10);
    assert c.key2 == c.v1End + 1;
    AllInText(s, c.key1 + |PatternOf(t).key1|, c.v1End, NonSpace, v1);
    AllInText(s, c.v1End, c.key2, Space, " ");
  }

  /** The second key and its value, which runs to the end of the line. */
  lemma RenderSecondValue(t: Transport, host: string, port: string, fingerprint: string, v1: string, v2: string)
    requires Renderable(t, host, port, fingerprint, v1, v2)
    ensures var parts := RenderParts(t, host, port, fingerprint, v1, v2); var c := RenderCuts(parts); var s := Concat(parts);
      LitAt(s, c.key2, PatternOf(t).key2)
      && c.key2 + |PatternOf(t).key2| < c.end <= |s|
      && AllIn(s, c.key2 + |PatternOf(t).key2|, c.end, PatternOf(t).last)
      && Stops(s, c.end, PatternOf(t).last)
  {
    var parts := RenderParts(t, host, port, fingerprint, v1, v2);
    var s := Concat(parts);
    var c := RenderCuts(parts);
    ConcatLength(parts);
    ConcatPiece(parts, 11);
    ConcatPiece(parts, 12);
    AllInText(s, c.key2 + |PatternOf(t).key2|, c.end, PatternOf(t).last, v2);
  }

  /** A stretch of `s` that is a text of class `k` is all of class `k`. */
  lemma AllInText(s: string, i: nat, j: nat, k: CharClass, text: string)
    requires i <= j <= |s| && s[i..j] == text
    requires forall m :: 0 <= m < |text| ==> InClass(text[m], k)
    ensures AllIn(s, i, j, k)
  {
    assert forall n :: i <= n < j ==> s[n] == text[n - i];
  }

  /** Round trip: classifying a line in canonical form gives back the parts it was made of,
      under the category its transport and host call for. */
  lemma ParseRender(t: Transport, host: string, port: string, fingerprint: string, v1: string, v2: string, addedAt: string)
    requires Renderable(t, host, port, fingerprint, v1, v2)
    ensures var line := Render(t, host, port, fingerprint, v1, v2);
      ParseAndClassifyBridge(line, addedAt) == Some(Classified(
        Category(t, IsIPv6(RemoveBrackets(host))), fingerprint,
        BridgeData(line, RemoveBrackets(host), port, fingerprint,
          if t == Obfs4 then Obfs4Fields(v1, v2) else WebtunnelFields(v1, v2), addedAt)))
  {
    var pat := PatternOf(t);
    var parts := RenderParts(t, host, port, fingerprint, v1, v2);
    var s := Concat(parts);
    var c := RenderCuts(parts);
    RenderIsTrimmed(t, host, port, fingerprint, v1, v2);
    RenderFirstMatch(t, host, port, fingerprint, v1, v2);
    RenderCutsInOrder(t, host, port, fingerprint, v1, v2);
    RenderBuild(t, host, port, fingerprint, v1, v2, addedAt);
    ParseOfFirstMatch(t, s, 0, c, addedAt);
  }

  /** The leftmost match in a line in canonical form is the one at its start. */
  lemma RenderFirstMatch(t: Transport, host: string, port: string, fingerprint: string, v1: string, v2: string)
    requires Renderable(t, host, port, fingerprint, v1, v2)
    ensures var parts := RenderParts(t, host, port, fingerprint, v1, v2);
      FirstLineMatch(PatternOf(t), Concat(parts), 0) == Some((0, RenderCuts(parts)))
  {
    var parts := RenderParts(t, host, port, fingerprint, v1, v2);
    RenderMatches(t, host, port, fingerprint, v1, v2);
    LineMatchAtComplete(PatternOf(t), Concat(parts), 0, RenderCuts(parts));
  }

  /** A line whose trim opens with `t`'s token and whose leftmost match has cuts `c` is
      classified from those cuts. */
  lemma ParseOfFirstMatch(t: Transport, bridgeLine: string, q: nat, c: LineCuts, addedAt: string)
    requires FirstToken(Trim(bridgeLine)) == t.Token()
    requires FirstLineMatch(PatternOf(t), Trim(bridgeLine), 0) == Some((q, c))
    ensures CutsInOrder(t, c, |Trim(bridgeLine)|)
    ensures ParseAndClassifyBridge(bridgeLine, addedAt) == Some(Build(t, Trim(bridgeLine), c, addedAt))
  {
    assert IsLineMatch(PatternOf(t), Trim(bridgeLine), q, c);
    assert (if t.Token() == "obfs4" then Obfs4 else Webtunnel) == t;
  }

  /** A line in canonical form is its own trim and opens with its transport token. */
  lemma RenderIsTrimmed(t: Transport, host: string, port: string, fingerprint: string, v1: string, v2: string)
    requires |v2| > 0 && !IsSpace(v2[|v2| - 1])
    ensures var s := Render(t, host, port, fingerprint, v1, v2);
      Trim(s) == s && FirstToken(s) == t.Token()
  {
    var parts := RenderParts(t, host, port, fingerprint, v1, v2);
    var s := Concat(parts);
    ConcatLength(parts);
    ConcatPiece(parts, 0);
    ConcatPiece(parts, 12);
    assert s[0] == t.Token()[0];
    assert s[|s| - 1] == v2[|v2| - 1];
    TrimOfTrimmed(s);
    RenderToken(t, parts);
  }

  /** A concatenation that opens with a transport token and a space has that token first. */
  lemma RenderToken(t: Transport, parts: seq<string>)
    requires |parts| >= 2 && parts[0] == t.Token() && parts[1] == " "
    ensures FirstToken(Concat(parts)) == t.Token()
  {
    var s := Concat(parts);
    var w := t.Token();
    ConcatPiece(parts, 0);
    ConcatPiece(parts, 1);
    assert s[..|w|] == w;
    assert s[|w|] == ' ';
    assert ' ' !in w;
    SplitFirst(s, ' ', |w|);
  }

  /** The canonical cuts lie in order. */
  lemma RenderCutsInOrder(t: Transport, host: string, port: string, fingerprint: string, v1: string, v2: string)
    requires |fingerprint| == 40
    ensures var parts := RenderParts(t, host, port, fingerprint, v1, v2);
      CutsInOrder(t, RenderCuts(parts), |Concat(parts)|)
  {
    var parts := RenderParts(t, host, port, fingerprint, v1, v2);
    ConcatLength(parts);
    for k := 0 to 13
      invariant forall m :: 0 <= m < k ==> Offset(parts, m + 1) == Offset(parts, m) + |parts[m]|
    {
    }
  }

  /** The record built from the canonical cuts holds the parts. */
  lemma RenderBuild(t: Transport, host: string, port: string, fingerprint: string, v1: string, v2: string, addedAt: string)
    requires |fingerprint| == 40
    requires CutsInOrder(t, RenderCuts(RenderParts(t, host, port, fingerprint, v1, v2)), |Render(t, host, port, fingerprint, v1, v2)|)
    ensures var s := Render(t, host, port, fingerprint, v1, v2);
      Build(t, s, RenderCuts(RenderParts(t, host, port, fingerprint, v1, v2)), addedAt) == Classified(
        Category(t, IsIPv6(RemoveBrackets(host))), fingerprint,
        BridgeData(s, RemoveBrackets(host), port, fingerprint,
          if t == Obfs4 then Obfs4Fields(v1, v2) else WebtunnelFields(v1, v2), addedAt))
  {
    var parts := RenderParts(t, host, port, fingerprint, v1, v2);
    var s := Concat(parts);
    var c := RenderCuts(parts);
    RenderSlices(t, host, port, fingerprint, v1, v2);
    BuildOfParts(t, s, c, addedAt, host, port, fingerprint, v1, v2);
  }

  /** The parts of a line in canonical form lie between its canonical cuts. */
  lemma RenderSlices(t: Transport, host: string, port: string, fingerprint: string, v1: string, v2: string)
    requires |fingerprint| == 40
    requires CutsInOrder(t, RenderCuts(RenderParts(t, host, port, fingerprint, v1, v2)), |Render(t, host, port, fingerprint, v1, v2)|)
    ensures var s := Render(t, host, port, fingerprint, v1, v2); var c := RenderCuts(RenderParts(t, host, port, fingerprint, v1, v2));
      s[c.host..c.hostEnd] == host && s[c.hostEnd + 1..c.portEnd] == port && s[c.fp..c.fp + 40] == fingerprint
      && s[c.key1 + |PatternOf(t).key1|..c.v1End] == v1 && s[c.key2 + |PatternOf(t).key2|..c.end] == v2
  {
    RenderSliceHost(t, host, port, fingerprint, v1, v2);
    RenderSlicePort(t, host, port, fingerprint, v1, v2);
    RenderSliceFingerprint(t, host, port, fingerprint, v1, v2);
    RenderSliceValues(t, host, port, fingerprint, v1, v2);
  }

  /** The host lies between the host cuts. */
  lemma RenderSliceHost(t: Transport, host: string, port: string, fingerprint: string, v1: string, v2: string)
    requires |fingerprint| == 40
    requires CutsInOrder(t, RenderCuts(RenderParts(t, host, port, fingerprint, v1, v2)), |Render(t, host, port, fingerprint, v1, v2)|)
    ensures var s := Render(t, host, port, fingerprint, v1, v2); var c := RenderCuts(RenderParts(t, host, port, fingerprint, v1, v2));
      s[c.host..c.hostEnd] == host
  {
    ConcatPiece(RenderParts(t, host, port, fingerprint, v1, v2), 2);
  }

  /** The port lies between the end of the host and the end of the port. */
  lemma RenderSlicePort(t: Transport, host: string, port: string, fingerprint: string, v1: string, v2: string)
    requires |fingerprint| == 40
    requires CutsInOrder(t, RenderCuts(RenderParts(t, host, port, fingerprint, v1, v2)), |Render(t, host, port, fingerprint, v1, v2)|)
    ensures var s := Render(t, host, port, fingerprint, v1, v2); var c := RenderCuts(RenderParts(t, host, port, fingerprint, v1, v2));
      s[c.hostEnd + 1..c.portEnd] == port
  {
    var parts := RenderParts(t, host, port, fingerprint, v1, v2);
    assert Offset(parts, 4) == Offset(parts, 3) + 1;
    ConcatPiece(parts, 4);
  }

  /** The fingerprint is the 40 characters at its cut. */
  lemma RenderSliceFingerprint(t: Transport, host: string, port: string, fingerprint: string, v1: string, v2: string)
    requires |fingerprint| == 40
    requires CutsInOrder(t, RenderCuts(RenderParts(t, host, port, fingerprint, v1, v2)), |Render(t, host, port, fingerprint, v1, v2)|)
    ensures var s := Render(t, host, port, fingerprint, v1, v2); var c := RenderCuts(RenderParts(t, host, port, fingerprint, v1, v2));
      s[c.fp..c.fp + 40] == fingerprint
  {
    ConcatPiece(RenderParts(t, host, port, fingerprint, v1, v2), 6);
  }

  /** The two values follow their keys. */
  lemma RenderSliceValues(t: Transport, host: string, port: string, fingerprint: string, v1: string, v2: string)
    requires |fingerprint| == 40
    requires CutsInOrder(t, RenderCuts(RenderParts(t, host, port, fingerprint, v1, v2)), |Render(t, host, port, fingerprint, v1, v2)|)
    ensures var s := Render(t, host, port, fingerprint, v1, v2); var c := RenderCuts(RenderParts(t, host, port, fingerprint, v1, v2));
      s[c.key1 + |PatternOf(t).key1|..c.v1End] == v1 && s[c.key2 + |PatternOf(t).key2|..c.end] == v2
  {
    ConcatPiece(RenderParts(t, host, port, fingerprint, v1, v2), 9);
    ConcatPiece(RenderParts(t, host, port, fingerprint, v1, v2), 12);
  }

  /** The record built from cuts holds the text between them. */
  lemma BuildOfParts(t: Transport, s: string, c: LineCuts, addedAt: string,
                     host: string, port: string, fingerprint: string, v1: string, v2: string)
    requires CutsInOrder(t, c, |s|)
    requires s[c.host..c.hostEnd] == host && s[c.hostEnd + 1..c.portEnd] == port && s[c.fp..c.fp + 40] == fingerprint
    requires s[c.key1 + |PatternOf(t).key1|..c.v1End] == v1 && s[c.key2 + |PatternOf(t).key2|..c.end] == v2
    ensures Build(t, s, c, addedAt) == Classified(
        Category(t, IsIPv6(RemoveBrackets(host))), fingerprint,
        BridgeData(s, RemoveBrackets(host), port, fingerprint,
          if t == Obfs4 then Obfs4Fields(v1, v2) else WebtunnelFields(v1, v2), addedAt))
  {
  }
}
