/**
 * The extractor of src/core/fetchBridges.js: two global regular expressions
 * are run over the page text one after the other, each `exec` resuming where
 * the previous match ended, and every match is added to an insertion-ordered
 * set of lines.
 */
module FetchBridges {
  import opened Wrappers
  import opened Text
  import opened Bridges
  import opened BridgePatterns

  // ---------------------------------------------------------------------------
  // A JavaScript `Set` of strings: a sequence without repeats, in insertion order

  /** The sequence has no repeated element. */
  predicate NoRepeats(xs: seq<string>) {
    forall i, j :: 0 <= i < j < |xs| ==> xs[i] != xs[j]
  }

  /** `set.add(x)`: appends `x` unless it is already there. */
  function Add(acc: seq<string>, x: string): (r: seq<string>)
    ensures NoRepeats(acc) ==> NoRepeats(r)
    ensures forall y :: y in r <==> y in acc || y == x
    ensures x in acc ==> r == acc
    ensures x !in acc ==> r == acc + [x]
  {
    if x in acc then acc else acc + [x]
  }

  /** `set.add(x)` for each `x` of `xs` in turn. */
  function AddAll(acc: seq<string>, xs: seq<string>): (r: seq<string>)
    ensures NoRepeats(acc) ==> NoRepeats(r)
    ensures forall y :: y in r <==> y in acc || y in xs
    ensures |acc| <= |r| && r[..|acc|] == acc
    decreases |xs|
  {
    if xs == [] then acc else AddAll(Add(acc, xs[0]), xs[1..])
  }

  // ---------------------------------------------------------------------------
  // The matches as texts

  /** The `m[0]` of every `exec` from `lastIndex == from` on, in order. */
  function Found(pat: ShapePattern, s: string, from: nat): seq<string>
    decreases |s| - from
  {
    var m := FirstShapeMatch(pat, s, from);
    if m.None? then [] else [s[m.value.0..m.value.1.end]] + Found(pat, s, m.value.1.end)
  }

  /** The found texts are the spans of the successive matches `ShapeMatches` lists. */
  lemma {:induction false} FoundAreMatchSpans(pat: ShapePattern, s: string, from: nat)
    ensures |Found(pat, s, from)| == |ShapeMatches(pat, s, from)|
    ensures forall i :: 0 <= i < |Found(pat, s, from)| ==>
      ShapeMatches(pat, s, from)[i].0 <= ShapeMatches(pat, s, from)[i].1.end <= |s| &&
      Found(pat, s, from)[i] == s[ShapeMatches(pat, s, from)[i].0..ShapeMatches(pat, s, from)[i].1.end]
    decreases |s| - from
  {
    var m := FirstShapeMatch(pat, s, from);
    if m.Some? {
      FoundAreMatchSpans(pat, s, m.value.1.end);
      var ms := ShapeMatches(pat, s, from);
      var rest := ShapeMatches(pat, s, m.value.1.end);
      assert ms == [m.value] + rest;
      var f := Found(pat, s, from);
      assert f == [s[m.value.0..m.value.1.end]] + Found(pat, s, m.value.1.end);
      forall i | 0 <= i < |f|
        ensures ms[i].0 <= ms[i].1.end <= |s| && f[i] == s[ms[i].0..ms[i].1.end]
      {
        if i > 0 {
          assert ms[i] == rest[i - 1];
        }
      }
    }
  }

  // ---------------------------------------------------------------------------
  // extractBridgeLinesRegex

  /** `String(html || "")` for the page bodies the fetcher returns: no body is the empty text. */
  function TextOf(html: Option<string>): string {
    match html
    case None => ""
    case Some(s) => s
  }

  /** What `extractBridgeLinesRegex` returns: the obfs4 matches, then the webtunnel matches,
      each added to the set in the order `exec` finds them. */
  function Extracted(html: Option<string>): (r: seq<string>)
    ensures NoRepeats(r)
    ensures forall y :: y in r <==> y in Found(Obfs4Shape, TextOf(html), 0) || y in Found(WebtunnelShape, TextOf(html), 0)
  {
    var text := TextOf(html);
    AddAll(AddAll([], Found(Obfs4Shape, text, 0)), Found(WebtunnelShape, text, 0))
  }

  /** `extractBridgeLinesRegex`: two `exec` loops adding to one set. */
  method ExtractBridgeLinesRegex(html: Option<string>) returns (lines: seq<string>)
    ensures lines == Extracted(html)
  {
    var text := TextOf(html);
    lines := [];
    var pos: nat := 0;
    while true
      invariant pos <= |text|
      invariant AddAll(lines, Found(Obfs4Shape, text, pos)) == AddAll([], Found(Obfs4Shape, text, 0))
      decreases |text| - pos
    {
      var m := FirstShapeMatch(Obfs4Shape, text, pos);
      if m.None? {
        break;
      }
      lines := Add(lines, text[m.value.0..m.value.1.end]);
      pos := m.value.1.end;
    }
    var obfs4Lines := lines;
    pos := 0;
    while true
      invariant pos <= |text|
      invariant AddAll(lines, Found(WebtunnelShape, text, pos)) == AddAll(obfs4Lines, Found(WebtunnelShape, text, 0))
      decreases |text| - pos
    {
      var m := FirstShapeMatch(WebtunnelShape, text, pos);
      if m.None? {
        break;
      }
      lines := Add(lines, text[m.value.0..m.value.1.end]);
      pos := m.value.1.end;
    }
  }

  // ---------------------------------------------------------------------------
  // Properties of the extractor

  /** The set's order, stated without an accumulator: each element where it first occurs. */
  function FirstOccurrences(xs: seq<string>): seq<string> {
    if xs == [] then []
    else
      var init := xs[..|xs| - 1];
      FirstOccurrences(init) + (if xs[|xs| - 1] in init then [] else [xs[|xs| - 1]])
  }

  /** Adding one more element at the end of the input adds it at the end of the set. */
  lemma {:induction false} AddAllSnoc(acc: seq<string>, xs: seq<string>, x: string)
    ensures AddAll(acc, xs + [x]) == Add(AddAll(acc, xs), x)
    decreases |xs|
  {
    if xs != [] {
      assert (xs + [x])[0] == xs[0] && (xs + [x])[1..] == xs[1..] + [x];
      AddAllSnoc(Add(acc, xs[0]), xs[1..], x);
    }
  }

  /** Adding the elements of `xs` one by one to an empty set lists them in order of first occurrence. */
  lemma {:induction false} AddAllIsFirstOccurrences(xs: seq<string>)
    ensures AddAll([], xs) == FirstOccurrences(xs)
    decreases |xs|
  {
    if xs != [] {
      var init := xs[..|xs| - 1];
      var x := xs[|xs| - 1];
      assert xs == init + [x];
      AddAllSnoc([], init, x);
      AddAllIsFirstOccurrences(init);
    }
  }

  /** Elements the set does not hold yet are added after everything it holds. */
  lemma {:induction false} AddAllAfter(a: seq<string>, b: seq<string>, xs: seq<string>)
    requires forall y :: y in xs ==> y !in a
    ensures AddAll(a + b, xs) == a + AddAll(b, xs)
    decreases |xs|
  {
    if xs != [] {
      var x := xs[0];
      assert x in xs;
      if x in b {
        assert Add(a + b, x) == a + b;
      } else {
        assert x !in a + b;
        assert Add(a + b, x) == a + (b + [x]);
      }
      assert forall y :: y in xs[1..] ==> y in xs;
      AddAllAfter(a, Add(b, x), xs[1..]);
    }
  }

  /** Every text found starts with the pattern's head, and more follows it. */
  lemma {:induction false} FoundStartWithHead(pat: ShapePattern, s: string, from: nat)
    ensures forall y :: y in Found(pat, s, from) ==> |pat.head| < |y| && y[..|pat.head|] == pat.head
    decreases |s| - from
  {
    var m := FirstShapeMatch(pat, s, from);
    if m.Some? {
      var p := m.value.0;
      var c := m.value.1;
      FoundStartWithHead(pat, s, c.end);
      assert Found(pat, s, from) == [s[p..c.end]] + Found(pat, s, c.end);
      MatchStartsWithHead(pat.head, s, p, c.end);
    }
  }

  /** The text of a match starts with the pattern's head. */
  lemma MatchStartsWithHead(head: string, s: string, p: nat, end: nat)
    requires LitAt(s, p, head) && p + |head| < end <= |s|
    ensures |head| < |s[p..end]| && s[p..end][..|head|] == head
  {
    var text := s[p..end];
    forall n | 0 <= n < |head|
      ensures text[n] == head[n]
    {
      assert text[n] == s[p + n] == s[p..p + |head|][n];
    }
  }

  /** Result order: the obfs4 lines in the order they first occur, then the webtunnel lines in
      the order they first occur; no text matches both patterns. */
  lemma ExtractedOrder(html: Option<string>)
    ensures Extracted(html) == FirstOccurrences(Found(Obfs4Shape, TextOf(html), 0)) + FirstOccurrences(Found(WebtunnelShape, TextOf(html), 0))
  {
    var text := TextOf(html);
    var obfs4 := Found(Obfs4Shape, text, 0);
    var webtunnel := Found(WebtunnelShape, text, 0);
    var a := AddAll([], obfs4);
    FoundDisjoint(text, a);
    AddAllAfter(a, [], webtunnel);
    assert a + [] == a;
    AddAllIsFirstOccurrences(obfs4);
    AddAllIsFirstOccurrences(webtunnel);
  }

  /** No webtunnel text is among the obfs4 texts (`a` holds nothing else). */
  lemma FoundDisjoint(text: string, a: seq<string>)
    requires forall y :: y in a <==> y in Found(Obfs4Shape, text, 0)
    ensures forall y :: y in Found(WebtunnelShape, text, 0) ==> y !in a
  {
    FoundFirstChar(Obfs4Shape, text, 'o');
    FoundFirstChar(WebtunnelShape, text, 'w');
  }

  /** Every text found starts with the first character of the pattern's head. */
  lemma FoundFirstChar(pat: ShapePattern, text: string, c0: char)
    requires |pat.head| > 0 && pat.head[0] == c0
    ensures forall y :: y in Found(pat, text, 0) ==> |y| > 0 && y[0] == c0
  {
    FoundStartWithHead(pat, text, 0);
    forall y | y in Found(pat, text, 0)
      ensures |y| > 0 && y[0] == c0
    {
      assert y[..|pat.head|][0] == y[0];
    }
  }

  /** No page, or an empty one, gives no lines. */
  lemma NoTextNoLines(html: Option<string>)
    requires html == None || html == Some("")
    ensures Extracted(html) == []
  {
    assert FirstShapeMatch(Obfs4Shape, TextOf(html), 0).None?;
    assert FirstShapeMatch(WebtunnelShape, TextOf(html), 0).None?;
  }

  /** The extractor pattern for each transport. */
  function ShapeOf(t: Transport): (pat: ShapePattern)
    ensures pat == Obfs4Shape || pat == WebtunnelShape
  {
    match t
    case Obfs4 => Obfs4Shape
    case Webtunnel => WebtunnelShape
  }

  /** Every line returned is a substring of the text that one of the two patterns matches there. */
  lemma ExtractedLineIsMatch(html: Option<string>, x: string) returns (t: Transport, p: nat, c: ShapeCuts)
    requires x in Extracted(html)
    ensures IsShapeMatch(ShapeOf(t), TextOf(html), p, c) && p < c.end <= |TextOf(html)|
    ensures x == TextOf(html)[p..c.end]
  {
    var text := TextOf(html);
    t := if x in Found(Obfs4Shape, text, 0) then Obfs4 else Webtunnel;
    var pat := ShapeOf(t);
    var found := Found(pat, text, 0);
    var i :| 0 <= i < |found| && found[i] == x;
    FoundAreMatchSpans(pat, text, 0);
    ShapeMatchesAreMatches(pat, text, 0, i);
    ShapeMatchesOrdered(pat, text, 0, i);
    p := ShapeMatches(pat, text, 0)[i].0;
    c := ShapeMatches(pat, text, 0)[i].1;
  }

  /** Nothing the patterns match is missed: every position where one of them matches lies inside
      a returned line, which is where the engine found that pattern's match. */
  lemma MatchIsCovered(html: Option<string>, t: Transport, q: nat) returns (p: nat, c: ShapeCuts)
    requires q < |TextOf(html)| && ShapeMatchAt(ShapeOf(t), TextOf(html), q).Some?
    ensures p <= q < c.end <= |TextOf(html)| && IsShapeMatch(ShapeOf(t), TextOf(html), p, c)
    ensures TextOf(html)[p..c.end] in Extracted(html)
  {
    var text := TextOf(html);
    var pat := ShapeOf(t);
    var i := ShapeMatchesCover(pat, text, 0, q);
    FoundAreMatchSpans(pat, text, 0);
    ShapeMatchesAreMatches(pat, text, 0, i);
    p := ShapeMatches(pat, text, 0)[i].0;
    c := ShapeMatches(pat, text, 0)[i].1;
    assert Found(pat, text, 0)[i] == text[p..c.end];
  }

  /** Matches of one pattern do not overlap and come left to right. */
  lemma MatchesDoNotOverlap(pat: ShapePattern, s: string, from: nat, i: nat, j: nat)
    requires i < j < |ShapeMatches(pat, s, from)|
    ensures ShapeMatches(pat, s, from)[i].1.end <= ShapeMatches(pat, s, from)[j].0
  {
    var ms := ShapeMatches(pat, s, from);
    forall k | 0 <= k < |ms|
      ensures ms[k].0 < ms[k].1.end && (k + 1 < |ms| ==> ms[k].1.end <= ms[k + 1].0)
    {
      ShapeMatchesOrdered(pat, s, from, k);
    }
    SpansApart(ms, i, j);
  }

  /** In a list of non-empty spans each ending before the next starts, a span ends before any
      later one starts. */
  lemma {:induction false} SpansApart(ms: seq<(nat, ShapeCuts)>, i: nat, j: nat)
    requires forall k :: 0 <= k < |ms| ==> ms[k].0 < ms[k].1.end
    requires forall k :: 0 <= k < |ms| - 1 ==> ms[k].1.end <= ms[k + 1].0
    requires i < j < |ms|
    ensures ms[i].1.end <= ms[j].0
    decreases j - i
  {
    if i + 1 < j {
      SpansApart(ms, i + 1, j);
      assert ms[i].1.end <= ms[i + 1].0 < ms[i + 1].1.end;
    }
  }
}
