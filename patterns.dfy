/**
 * Hand-written matchers for the four regular expressions of the harvester.
 *
 * Each pattern is given twice: as a predicate that says where the parts of a
 * match lie in the text (the "cuts"), and as a scanner that computes those
 * cuts from a start position. Every quantifier in these patterns is followed
 * by a character its class excludes, so greedy matching with backtracking
 * settles on exactly one set of cuts per start position; the lemmas below
 * prove the scanner finds a match at a position exactly when the predicate
 * holds there, and the leftmost-search functions give JavaScript's choice of
 * the first match.
 */
module BridgePatterns {
  import opened Wrappers
  import opened Text

  /** The character classes the patterns use. */
  datatype CharClass =
    | Space        // \s
    | NonSpace     // \S, [^\s]
    | Digit        // \d, [0-9]
    | UpperHex     // [A-F0-9]
    | HexOrColon   // [a-fA-F0-9:]

  predicate InClass(c: char, k: CharClass) {
    match k
    case Space => IsSpace(c)
    case NonSpace => !IsSpace(c)
    case Digit => IsDigit(c)
    case UpperHex => IsDigit(c) || ('A' <= c <= 'F')
    case HexOrColon => IsDigit(c) || ('a' <= c <= 'f') || ('A' <= c <= 'F') || c == ':'
  }

  /** Every character of `s[i..j]` is in class `k`. */
  predicate AllIn(s: string, i: nat, j: nat, k: CharClass)
    requires i <= j <= |s|
  {
    forall n :: i <= n < j ==> InClass(s[n], k)
  }

  /** A greedy run of class `k` cannot go past `j`. */
  predicate Stops(s: string, j: nat, k: CharClass)
    requires j <= |s|
  {
    j == |s| || !InClass(s[j], k)
  }

  /** `lit` occurs at position `i` of `s`. */
  predicate LitAt(s: string, i: nat, lit: string) {
    i + |lit| <= |s| && s[i..i + |lit|] == lit
  }

  /** The end of the longest run of class `k` starting at `i`. */
  function Run(s: string, i: nat, k: CharClass): (j: nat)
    requires i <= |s|
    ensures i <= j <= |s| && AllIn(s, i, j, k) && Stops(s, j, k)
    decreases |s| - i
  {
    if i < |s| && InClass(s[i], k) then Run(s, i + 1, k) else i
  }

  /** The start of the longest run of class `k` that ends at `hi` and starts no earlier than `lo`. */
  function RunBack(s: string, lo: nat, hi: nat, k: CharClass): (j: nat)
    requires lo <= hi <= |s|
    ensures lo <= j <= hi && AllIn(s, j, hi, k) && (j == lo || !InClass(s[j - 1], k))
    decreases hi - lo
  {
    if lo < hi && InClass(s[hi - 1], k) then RunBack(s, lo, hi - 1, k) else hi
  }

  /** A run that holds up to `j` and stops there is the greedy run. */
  lemma RunUnique(s: string, i: nat, j: nat, k: CharClass)
    requires i <= j <= |s| && AllIn(s, i, j, k) && Stops(s, j, k)
    ensures Run(s, i, k) == j
  {
  }

  /** A run that holds back to `j` and cannot be extended left is the backward run. */
  lemma RunBackUnique(s: string, lo: nat, j: nat, hi: nat, k: CharClass)
    requires lo <= j <= hi <= |s| && AllIn(s, j, hi, k) && (j == lo || !InClass(s[j - 1], k))
    ensures RunBack(s, lo, hi, k) == j
  {
  }

  // ---------------------------------------------------------------------------
  // The host of the classifier patterns: (?:\[[a-fA-F0-9:]+\]|\d{1,3}(?:\.\d{1,3}){3})

  /** `s[i..j]` is `[`, one or more of [a-fA-F0-9:], then `]`. */
  predicate BracketedAt(s: string, i: nat, j: nat)
    requires i <= j <= |s|
  {
    i + 3 <= j && s[i] == '[' && s[j - 1] == ']' && AllIn(s, i + 1, j - 1, HexOrColon)
  }

  /** `s[i..j]` is `n` groups of one to three digits joined by `.`. */
  predicate DottedAt(s: string, i: nat, j: nat, n: nat)
    requires i <= j <= |s|
    decreases n, 1
  {
    n >= 1 && (GroupAt(s, i, i + 1, j, n) || GroupAt(s, i, i + 2, j, n) || GroupAt(s, i, i + 3, j, n))
  }

  /** The first of the `n` groups of `DottedAt` is `s[i..k]`. */
  predicate GroupAt(s: string, i: nat, k: nat, j: nat, n: nat)
    requires i <= j <= |s|
    decreases n, 0
  {
    n >= 1 && i <= k <= j && AllIn(s, i, k, Digit)
    && if n == 1 then k == j else k < j && s[k] == '.' && DottedAt(s, k + 1, j, n - 1)
  }

  /** `s[i..j]` is a host the classifier accepts. */
  predicate HostAt(s: string, i: nat, j: nat)
    requires i <= j <= |s|
  {
    BracketedAt(s, i, j) || DottedAt(s, i, j, 4)
  }

  /** Dotted groups hold nothing but digits and dots. */
  lemma {:induction false} DottedChars(s: string, i: nat, j: nat, n: nat)
    requires i <= j <= |s| && DottedAt(s, i, j, n)
    ensures forall m :: i <= m < j ==> IsDigit(s[m]) || s[m] == '.'
    decreases n
  {
    var k := if GroupAt(s, i, i + 1, j, n) then i + 1 else if GroupAt(s, i, i + 2, j, n) then i + 2 else i + 3;
    assert GroupAt(s, i, k, j, n);
    if n > 1 {
      DottedChars(s, k + 1, j, n - 1);
    }
  }

  /** Whether `s[i..j]` is dotted groups depends only on the text `s[i..j]`. */
  lemma {:induction false} DottedAtSlice(s: string, i: nat, j: nat, n: nat)
    requires i <= j <= |s|
    ensures DottedAt(s, i, j, n) <==> DottedAt(s[i..j], 0, j - i, n)
    decreases n, 1
  {
    if n >= 1 {
      GroupAtSlice(s, i, 1, j, n);
      GroupAtSlice(s, i, 2, j, n);
      GroupAtSlice(s, i, 3, j, n);
    }
  }

  /** Whether the first group of `s[i..j]` is `s[i..i + k]` depends only on the text `s[i..j]`. */
  lemma {:induction false} GroupAtSlice(s: string, i: nat, k: nat, j: nat, n: nat)
    requires i <= j <= |s| && n >= 1
    ensures GroupAt(s, i, i + k, j, n) <==> GroupAt(s[i..j], 0, k, j - i, n)
    decreases n, 0
  {
    var h := s[i..j];
    if k <= j - i {
      assert AllIn(s, i, i + k, Digit) <==> AllIn(h, 0, k, Digit) by {
        assert forall m :: i <= m < i + k ==> s[m] == h[m - i];
      }
      if n > 1 && k < j - i {
        DottedAtSlice(s, i + k + 1, j, n - 1);
        DottedAtSlice(h, k + 1, j - i, n - 1);
        assert h[k + 1..j - i] == s[i + k + 1..j];
        assert h[k] == s[i + k];
      }
    }
  }

  /** Whether `s[i..j]` is a host depends only on the text `s[i..j]`. */
  lemma HostAtSlice(s: string, i: nat, j: nat)
    requires i <= j <= |s|
    ensures HostAt(s, i, j) <==> HostAt(s[i..j], 0, j - i)
  {
    DottedAtSlice(s, i, j, 4);
    var h := s[i..j];
    if i + 3 <= j {
      assert AllIn(s, i + 1, j - 1, HexOrColon) <==> AllIn(h, 1, j - i - 1, HexOrColon) by {
        assert forall m :: i + 1 <= m < j - 1 ==> s[m] == h[m - i];
      }
    }
  }

  /** The end of the dotted groups starting at `i`, as the regex engine finds it. */
  function DottedEnd(s: string, i: nat, n: nat): (r: Option<nat>)
    requires i <= |s| && n >= 1
    ensures r.Some? ==> i < r.value <= |s| && DottedAt(s, i, r.value, n) && Stops(s, r.value, Digit)
    decreases n
  {
    var k := Run(s, i, Digit);
    if k == i || k > i + 3 then None
    else if n == 1 then Some(k)
    else if k < |s| && s[k] == '.' then DottedEnd(s, k + 1, n - 1)
    else None
  }

  lemma {:induction false} DottedEndComplete(s: string, i: nat, j: nat, n: nat)
    requires i <= j <= |s| && DottedAt(s, i, j, n) && Stops(s, j, Digit)
    ensures DottedEnd(s, i, n) == Some(j)
    decreases n
  {
    var k := if GroupAt(s, i, i + 1, j, n) then i + 1 else if GroupAt(s, i, i + 2, j, n) then i + 2 else i + 3;
    assert GroupAt(s, i, k, j, n);
    assert Stops(s, k, Digit);
    RunUnique(s, i, k, Digit);
    if n > 1 {
      DottedEndComplete(s, k + 1, j, n - 1);
    }
  }

  /** The end of the host starting at `i`, as the regex engine finds it. */
  function HostEnd(s: string, i: nat): (r: Option<nat>)
    requires i <= |s|
    ensures r.Some? ==> i < r.value <= |s| && HostAt(s, i, r.value)
  {
    if i < |s| && s[i] == '[' then
      var c := Run(s, i + 1, HexOrColon);
      if c > i + 1 && c < |s| && s[c] == ']' then Some(c + 1) else None
    else
      DottedEnd(s, i, 4)
  }

  lemma HostEndComplete(s: string, i: nat, j: nat)
    requires i <= j < |s| && HostAt(s, i, j) && s[j] == ':'
    ensures HostEnd(s, i) == Some(j)
  {
    if BracketedAt(s, i, j) {
      assert Run(s, i + 1, HexOrColon) == j - 1;
    } else {
      assert GroupAt(s, i, i + 1, j, 4) || GroupAt(s, i, i + 2, j, 4) || GroupAt(s, i, i + 3, j, 4);
      assert IsDigit(s[i]);
      DottedEndComplete(s, i, j, 4);
    }
  }

  // ---------------------------------------------------------------------------
  // The classifier patterns (src/core/parse.js):
  //   (WORD)\s+(HOST)(?::(\d+))\s+([A-F0-9]{40})\s+KEY1([^\s]+)\s+KEY2(LAST+)

  /** A classifier pattern: its transport word, its two keys, and the class of the last value. */
  datatype LinePattern = LinePattern(word: string, key1: string, key2: string, last: CharClass) {
    /** The keys start with a character that ends a run of whitespace. */
    predicate Valid() {
      |word| > 0 && |key1| > 0 && |key2| > 0 && !IsSpace(key1[0]) && !IsSpace(key2[0])
    }
  }

  /** `(obfs4)\s+HOST(?::(\d+))\s+([A-F0-9]{40})\s+cert=([^\s]+)\s+iat-mode=([0-9]+)` */
  const Obfs4Line := LinePattern("obfs4", "cert=", "iat-mode=", Digit)
  /** `(webtunnel)\s+HOST(?::(\d+))\s+([A-F0-9]{40})\s+url=([^\s]+)\s+ver=([^\s]+)` */
  const WebtunnelLine := LinePattern("webtunnel", "url=", "ver=", NonSpace)

  /** Where the parts of a classifier match lie: the host is `s[host..hostEnd]`, the port
      `s[hostEnd + 1..portEnd]`, the fingerprint `s[fp..fp + 40]`, the first value
      `s[key1 + |KEY1|..v1End]` and the second `s[key2 + |KEY2|..end]`. */
  datatype LineCuts = LineCuts(host: nat, hostEnd: nat, portEnd: nat, fp: nat,
                               key1: nat, v1End: nat, key2: nat, end: nat)

  /** `WORD\s+HOST:` from `p`, with the host at `s[host..hostEnd]`. */
  predicate HeadAt(pat: LinePattern, s: string, p: nat, host: nat, hostEnd: nat) {
    LitAt(s, p, pat.word)
    && p + |pat.word| < host < hostEnd < |s|
    && AllIn(s, p + |pat.word|, host, Space)
    && HostAt(s, host, hostEnd) && s[hostEnd] == ':'
  }

  /** `:(\d+)\s+([A-F0-9]{40})\s+` from the colon at `colon`, ending where the first key starts. */
  predicate PortFingerprintAt(s: string, colon: nat, portEnd: nat, fp: nat, key1: nat) {
    colon + 1 < portEnd < fp && fp + 40 < key1 <= |s|
    && AllIn(s, colon + 1, portEnd, Digit)
    && AllIn(s, portEnd, fp, Space)
    && AllIn(s, fp, fp + 40, UpperHex)
    && AllIn(s, fp + 40, key1, Space)
  }

  /** `KEY1([^\s]+)\s+KEY2(LAST+)` from `key1`, the last value greedy up to `end`. */
  predicate ValuesAt(pat: LinePattern, s: string, key1: nat, v1End: nat, key2: nat, end: nat) {
    LitAt(s, key1, pat.key1)
    && key1 + |pat.key1| < v1End < key2 <= |s|
    && AllIn(s, key1 + |pat.key1|, v1End, NonSpace)
    && AllIn(s, v1End, key2, Space)
    && LitAt(s, key2, pat.key2)
    && key2 + |pat.key2| < end <= |s|
    && AllIn(s, key2 + |pat.key2|, end, pat.last)
    && Stops(s, end, pat.last)
  }

  /** The classifier pattern matches `s` from `p` with the parts at `c`; the last value is greedy. */
  predicate IsLineMatch(pat: LinePattern, s: string, p: nat, c: LineCuts) {
    HeadAt(pat, s, p, c.host, c.hostEnd)
    && PortFingerprintAt(s, c.hostEnd, c.portEnd, c.fp, c.key1)
    && ValuesAt(pat, s, c.key1, c.v1End, c.key2, c.end)
  }

  /** The engine's match of the two key=value fields from `key1`. */
  function ValuesFrom(pat: LinePattern, s: string, key1: nat): (r: Option<(nat, nat, nat)>)
    ensures r.Some? ==> ValuesAt(pat, s, key1, r.value.0, r.value.1, r.value.2)
  {
    if !LitAt(s, key1, pat.key1) then None
    else
      var v1End := Run(s, key1 + |pat.key1|, NonSpace);
      var key2 := Run(s, v1End, Space);
      if v1End == key1 + |pat.key1| || key2 == v1End || !LitAt(s, key2, pat.key2) then None
      else
        var end := Run(s, key2 + |pat.key2|, pat.last);
        if end == key2 + |pat.key2| then None else Some((v1End, key2, end))
  }

  lemma ValuesFromComplete(pat: LinePattern, s: string, key1: nat, v1End: nat, key2: nat, end: nat)
    requires pat.Valid() && ValuesAt(pat, s, key1, v1End, key2, end)
    ensures ValuesFrom(pat, s, key1) == Some((v1End, key2, end))
  {
    assert s[key2] == s[key2..key2 + |pat.key2|][0];
    RunUnique(s, key1 + |pat.key1|, v1End, NonSpace);
    RunUnique(s, v1End, key2, Space);
    RunUnique(s, key2 + |pat.key2|, end, pat.last);
  }

  /** The engine's match of the port and fingerprint after the colon at `colon`. */
  function PortFingerprintFrom(s: string, colon: nat): (r: Option<(nat, nat, nat)>)
    requires colon < |s|
    ensures r.Some? ==> PortFingerprintAt(s, colon, r.value.0, r.value.1, r.value.2)
  {
    var portEnd := Run(s, colon + 1, Digit);
    var fp := Run(s, portEnd, Space);
    if portEnd == colon + 1 || fp == portEnd || Run(s, fp, UpperHex) != fp + 40 then None
    else
      var key1 := Run(s, fp + 40, Space);
      if key1 == fp + 40 then None else Some((portEnd, fp, key1))
  }

  lemma PortFingerprintFromComplete(s: string, colon: nat, portEnd: nat, fp: nat, key1: nat)
    requires colon < |s| && PortFingerprintAt(s, colon, portEnd, fp, key1)
    requires key1 < |s| && !IsSpace(s[key1])
    ensures PortFingerprintFrom(s, colon) == Some((portEnd, fp, key1))
  {
    RunUnique(s, colon + 1, portEnd, Digit);
    RunUnique(s, portEnd, fp, Space);
    RunUnique(s, fp, fp + 40, UpperHex);
    RunUnique(s, fp + 40, key1, Space);
  }

  /** The engine's match of the transport word and the host from `p`. */
  function HeadFrom(pat: LinePattern, s: string, p: nat): (r: Option<(nat, nat)>)
    ensures r.Some? ==> HeadAt(pat, s, p, r.value.0, r.value.1)
  {
    if !LitAt(s, p, pat.word) then None
    else
      var host := Run(s, p + |pat.word|, Space);
      if host == p + |pat.word| then None
      else match HostEnd(s, host)
        case None => None
        case Some(hostEnd) => if hostEnd >= |s| || s[hostEnd] != ':' then None else Some((host, hostEnd))
  }

  lemma HeadFromComplete(pat: LinePattern, s: string, p: nat, host: nat, hostEnd: nat)
    requires HeadAt(pat, s, p, host, hostEnd)
    ensures HeadFrom(pat, s, p) == Some((host, hostEnd))
  {
    assert !IsSpace(s[host]) by {
      if !BracketedAt(s, host, hostEnd) {
        assert GroupAt(s, host, host + 1, hostEnd, 4) || GroupAt(s, host, host + 2, hostEnd, 4)
          || GroupAt(s, host, host + 3, hostEnd, 4);
      }
    }
    RunUnique(s, p + |pat.word|, host, Space);
    HostEndComplete(s, host, hostEnd);
  }

  /** The regex engine's attempt to match the classifier pattern at position `p`. */
  function LineMatchAt(pat: LinePattern, s: string, p: nat): (r: Option<LineCuts>)
    ensures r.Some? ==> IsLineMatch(pat, s, p, r.value)
  {
    match HeadFrom(pat, s, p)
    case None => None
    case Some((host, hostEnd)) =>
      match PortFingerprintFrom(s, hostEnd)
      case None => None
      case Some((portEnd, fp, key1)) =>
        match ValuesFrom(pat, s, key1)
        case None => None
        case Some((v1End, key2, end)) => Some(LineCuts(host, hostEnd, portEnd, fp, key1, v1End, key2, end))
  }

  /** Whenever the pattern matches at `p`, the scanner finds exactly that match. */
  lemma LineMatchAtComplete(pat: LinePattern, s: string, p: nat, c: LineCuts)
    requires pat.Valid() && IsLineMatch(pat, s, p, c)
    ensures LineMatchAt(pat, s, p) == Some(c)
  {
    HeadFromComplete(pat, s, p, c.host, c.hostEnd);
    assert s[c.key1] == s[c.key1..c.key1 + |pat.key1|][0];
    PortFingerprintFromComplete(s, c.hostEnd, c.portEnd, c.fp, c.key1);
    ValuesFromComplete(pat, s, c.key1, c.v1End, c.key2, c.end);
  }

  /** The leftmost match of the classifier pattern at or after `from` (what `String.prototype.match` finds). */
  function FirstLineMatch(pat: LinePattern, s: string, from: nat): (r: Option<(nat, LineCuts)>)
    ensures r.Some? ==> from <= r.value.0 < |s| && LineMatchAt(pat, s, r.value.0) == Some(r.value.1)
    ensures forall q :: from <= q < |s| && LineMatchAt(pat, s, q).Some? ==> r.Some? && r.value.0 <= q
    decreases |s| - from
  {
    if from >= |s| then None
    else match LineMatchAt(pat, s, from)
      case Some(c) => Some((from, c))
      case None => FirstLineMatch(pat, s, from + 1)
  }

  /** The pattern matches somewhere in `s` exactly when the leftmost search succeeds, and
      the search returns a match no other match lies to the left of. */
  lemma FirstLineMatchIsLeftmost(pat: LinePattern, s: string, q: nat, c: LineCuts)
    requires pat.Valid() && IsLineMatch(pat, s, q, c)
    ensures FirstLineMatch(pat, s, 0).Some?
    ensures FirstLineMatch(pat, s, 0).value.0 <= q
  {
    LineMatchAtComplete(pat, s, q, c);
  }

  // ---------------------------------------------------------------------------
  // The extractor patterns (src/core/fetchBridges.js), with single spaces as separators:
  //   HEAD\S+:\d+ [A-F0-9]{40}KEY1\S+KEY2LAST+

  /** An extractor pattern: `obfs4 ` or `webtunnel `, its two keys with their leading
      space, and the class of the last value. */
  datatype ShapePattern = ShapePattern(head: string, key1: string, key2: string, last: CharClass) {
    /** The second key starts with a space, which ends the first value. */
    predicate Valid() {
      |head| > 0 && |key2| > 0 && IsSpace(key2[0])
    }
  }

  /** `obfs4 \S+:\d+ [A-F0-9]{40} cert=\S+ iat-mode=\d+` */
  const Obfs4Shape := ShapePattern("obfs4 ", " cert=", " iat-mode=", Digit)
  /** `webtunnel \S+:\d+ [A-F0-9]{40} url=\S+ ver=\S+` */
  const WebtunnelShape := ShapePattern("webtunnel ", " url=", " ver=", NonSpace)

  /** Where the parts of an extractor match lie: the host is `s[p + |HEAD|..colon]`, the port
      `s[colon + 1..portEnd]`, the fingerprint `s[portEnd + 1..portEnd + 41]`, the first value
      ends at `v1End` and the match at `end`. */
  datatype ShapeCuts = ShapeCuts(colon: nat, portEnd: nat, v1End: nat, end: nat)

  /** `HEAD\S+:\d+ ` from `p`. */
  predicate HostPortAt(pat: ShapePattern, s: string, p: nat, colon: nat, portEnd: nat) {
    LitAt(s, p, pat.head)
    && p + |pat.head| < colon && colon + 1 < portEnd < |s|
    && AllIn(s, p + |pat.head|, colon, NonSpace) && s[colon] == ':'
    && AllIn(s, colon + 1, portEnd, Digit) && s[portEnd] == ' '
  }

  /** `[A-F0-9]{40}KEY1\S+KEY2LAST+` after the space at `portEnd`, the last value greedy up to `end`. */
  predicate TailAt(pat: ShapePattern, s: string, portEnd: nat, v1End: nat, end: nat) {
    portEnd + 41 <= |s|
    && AllIn(s, portEnd + 1, portEnd + 41, UpperHex)
    && LitAt(s, portEnd + 41, pat.key1)
    && portEnd + 41 + |pat.key1| < v1End <= |s|
    && AllIn(s, portEnd + 41 + |pat.key1|, v1End, NonSpace)
    && LitAt(s, v1End, pat.key2)
    && v1End + |pat.key2| < end <= |s|
    && AllIn(s, v1End + |pat.key2|, end, pat.last)
    && Stops(s, end, pat.last)
  }

  /** The extractor pattern matches `s` from `p` with the parts at `c`. */
  predicate IsShapeMatch(pat: ShapePattern, s: string, p: nat, c: ShapeCuts) {
    HostPortAt(pat, s, p, c.colon, c.portEnd) && TailAt(pat, s, c.portEnd, c.v1End, c.end)
  }

  /** The engine's match of `HEAD\S+:\d+ `: `\S+` takes the whole non-space run, and
      backtracking leaves it the part before the colon that only digits follow. */
  function HostPortFrom(pat: ShapePattern, s: string, p: nat): (r: Option<(nat, nat)>)
    ensures r.Some? ==> HostPortAt(pat, s, p, r.value.0, r.value.1)
  {
    if !LitAt(s, p, pat.head) then None
    else
      var start := p + |pat.head|;
      var runEnd := Run(s, start, NonSpace);
      var digits := RunBack(s, start, runEnd, Digit);
      if digits == runEnd || digits < start + 2 || s[digits - 1] != ':' || runEnd >= |s| || s[runEnd] != ' ' then None
      else Some((digits - 1, runEnd))
  }

  lemma HostPortFromComplete(pat: ShapePattern, s: string, p: nat, colon: nat, portEnd: nat)
    requires HostPortAt(pat, s, p, colon, portEnd)
    ensures HostPortFrom(pat, s, p) == Some((colon, portEnd))
  {
    var start := p + |pat.head|;
    assert AllIn(s, start, portEnd, NonSpace) by {
      forall n | start <= n < portEnd ensures InClass(s[n], NonSpace) {
        if n > colon { assert IsDigit(s[n]); }
      }
    }
    RunUnique(s, start, portEnd, NonSpace);
    RunBackUnique(s, start, colon + 1, portEnd, Digit);
  }

  /** The engine's match of the fingerprint and the two fields after the space at `portEnd`. */
  function TailFrom(pat: ShapePattern, s: string, portEnd: nat): (r: Option<(nat, nat)>)
    ensures r.Some? ==> TailAt(pat, s, portEnd, r.value.0, r.value.1)
  {
    if portEnd + 41 > |s| || !AllIn(s, portEnd + 1, portEnd + 41, UpperHex) || !LitAt(s, portEnd + 41, pat.key1) then None
    else
      var v1End := Run(s, portEnd + 41 + |pat.key1|, NonSpace);
      if v1End == portEnd + 41 + |pat.key1| || !LitAt(s, v1End, pat.key2) then None
      else
        var end := Run(s, v1End + |pat.key2|, pat.last);
        if end == v1End + |pat.key2| then None else Some((v1End, end))
  }

  lemma TailFromComplete(pat: ShapePattern, s: string, portEnd: nat, v1End: nat, end: nat)
    requires pat.Valid() && TailAt(pat, s, portEnd, v1End, end)
    ensures TailFrom(pat, s, portEnd) == Some((v1End, end))
  {
    assert s[v1End] == s[v1End..v1End + |pat.key2|][0];
    RunUnique(s, portEnd + 41 + |pat.key1|, v1End, NonSpace);
    RunUnique(s, v1End + |pat.key2|, end, pat.last);
  }

  /** The regex engine's attempt to match the extractor pattern at position `p`. */
  function ShapeMatchAt(pat: ShapePattern, s: string, p: nat): (r: Option<ShapeCuts>)
    ensures r.Some? ==> IsShapeMatch(pat, s, p, r.value)
  {
    match HostPortFrom(pat, s, p)
    case None => None
    case Some((colon, portEnd)) =>
      match TailFrom(pat, s, portEnd)
      case None => None
      case Some((v1End, end)) => Some(ShapeCuts(colon, portEnd, v1End, end))
  }

  /** Whenever the extractor pattern matches at `p`, the scanner finds exactly that match. */
  lemma ShapeMatchAtComplete(pat: ShapePattern, s: string, p: nat, c: ShapeCuts)
    requires pat.Valid() && IsShapeMatch(pat, s, p, c)
    ensures ShapeMatchAt(pat, s, p) == Some(c)
  {
    HostPortFromComplete(pat, s, p, c.colon, c.portEnd);
    TailFromComplete(pat, s, c.portEnd, c.v1End, c.end);
  }

  /** The leftmost match of the extractor pattern at or after `from` (one `RegExp.prototype.exec`
      call with `lastIndex == from`). */
  function FirstShapeMatch(pat: ShapePattern, s: string, from: nat): (r: Option<(nat, ShapeCuts)>)
    ensures r.Some? ==> from <= r.value.0 < r.value.1.end <= |s| && ShapeMatchAt(pat, s, r.value.0) == Some(r.value.1)
    ensures r.Some? ==> forall q :: from <= q < r.value.0 ==> ShapeMatchAt(pat, s, q).None?
    ensures r.None? ==> forall q :: from <= q < |s| ==> ShapeMatchAt(pat, s, q).None?
    decreases |s| - from
  {
    if from >= |s| then None
    else
      var here := ShapeMatchAt(pat, s, from);
      if here.Some? then Some((from, here.value)) else FirstShapeMatch(pat, s, from + 1)
  }

  /** The successive `exec` matches from `lastIndex == from` on, each with its start. */
  function ShapeMatches(pat: ShapePattern, s: string, from: nat): seq<(nat, ShapeCuts)>
    decreases |s| - from
  {
    var m := FirstShapeMatch(pat, s, from);
    if m.None? then [] else [m.value] + ShapeMatches(pat, s, m.value.1.end)
  }

  /** The successive matches lie at or after `from`, inside `s`, and go left to right without
      overlapping. */
  lemma {:induction false} ShapeMatchesOrdered(pat: ShapePattern, s: string, from: nat, i: nat)
    requires i < |ShapeMatches(pat, s, from)|
    ensures from <= ShapeMatches(pat, s, from)[i].0 < ShapeMatches(pat, s, from)[i].1.end <= |s|
    ensures i + 1 < |ShapeMatches(pat, s, from)| ==> ShapeMatches(pat, s, from)[i].1.end <= ShapeMatches(pat, s, from)[i + 1].0
    decreases |s| - from
  {
    var m := FirstShapeMatch(pat, s, from);
    assert m.Some?;
    var rest := ShapeMatches(pat, s, m.value.1.end);
    assert ShapeMatches(pat, s, from) == [m.value] + rest;
    if i > 0 {
      ShapeMatchesOrdered(pat, s, m.value.1.end, i - 1);
    } else if 0 < |rest| {
      ShapeMatchesOrdered(pat, s, m.value.1.end, 0);
    }
  }

  /** Each of the successive matches is the engine's match at its start. */
  lemma {:induction false} ShapeMatchesAreMatches(pat: ShapePattern, s: string, from: nat, i: nat)
    requires i < |ShapeMatches(pat, s, from)|
    ensures ShapeMatchAt(pat, s, ShapeMatches(pat, s, from)[i].0) == Some(ShapeMatches(pat, s, from)[i].1)
    decreases |s| - from
  {
    var m := FirstShapeMatch(pat, s, from);
    if i > 0 {
      ShapeMatchesAreMatches(pat, s, m.value.1.end, i - 1);
    }
  }

  /** No match is skipped except one that overlaps an earlier match: every position where the
      pattern matches is the start of one of the successive matches (number `i`) or lies inside it. */
  lemma {:induction false} ShapeMatchesCover(pat: ShapePattern, s: string, from: nat, q: nat) returns (i: nat)
    requires from <= q < |s| && ShapeMatchAt(pat, s, q).Some?
    ensures i < |ShapeMatches(pat, s, from)| && ShapeMatches(pat, s, from)[i].0 <= q < ShapeMatches(pat, s, from)[i].1.end
    decreases |s| - from
  {
    var m := FirstShapeMatch(pat, s, from);
    assert m.Some?;
    var end := m.value.1.end;
    var rest := ShapeMatches(pat, s, end);
    assert ShapeMatches(pat, s, from) == [m.value] + rest;
    if q >= end {
      var j := ShapeMatchesCover(pat, s, end, q);
      i := j + 1;
    } else {
      i := 0;
    }
  }
}
