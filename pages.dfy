/**
 * The fetch loop of `runOnce` in src/core.js: each URL's result is a page, `null` or a thrown
 * error, and the lines of every non-empty page are collected, URL after URL. The extractor is a
 * parameter here, so these facts hold whatever it returns.
 */
module Pages {
  /** What `fetchHtml(url)` gave for one URL: a page, `null`, or a thrown error. */
  datatype Fetched = Page(html: string) | NoPage | Threw

  /** The lines one URL adds when the extractor gives `extract(html)` for a page: the lines of
      a non-empty page, none for an empty page, a `null` or an error. */
  function PageLinesWith<L>(f: Fetched, extract: string -> seq<L>): seq<L> {
    if f.Page? && |f.html| > 0 then extract(f.html) else []
  }

  /** The lines of each URL, in order. */
  function PageLineLists<L>(pages: seq<Fetched>, extract: string -> seq<L>): (lists: seq<seq<L>>)
    ensures |lists| == |pages|
    ensures forall i :: 0 <= i < |pages| ==> lists[i] == PageLinesWith(pages[i], extract)
  {
    seq(|pages|, i requires 0 <= i < |pages| => PageLinesWith(pages[i], extract))
  }

  /** The first `n` lists, one after another. */
  function Flat<L>(lists: seq<seq<L>>, n: nat): seq<L>
    requires n <= |lists|
  {
    if n == 0 then [] else Flat(lists, n - 1) + lists[n - 1]
  }

  /** The lines of the first `n` URLs, one URL after another. */
  function LinesWith<L>(pages: seq<Fetched>, extract: string -> seq<L>, n: nat): seq<L>
    requires n <= |pages|
  {
    Flat(PageLineLists(pages, extract), n)
  }

  /** An element is in the first `n` lists flattened exactly when one of them holds it. */
  lemma {:induction false} FlatMembers<L>(lists: seq<seq<L>>, n: nat, x: L)
    requires n <= |lists|
    ensures x in Flat(lists, n) <==> exists i :: 0 <= i < n && x in lists[i]
  {
    if n > 0 {
      FlatMembers(lists, n - 1, x);
    }
  }

  /** The first `n` lists flatten to nothing exactly when each of them is empty. */
  lemma {:induction false} FlatEmpty<L>(lists: seq<seq<L>>, n: nat)
    requires n <= |lists|
    ensures |Flat(lists, n)| == 0 <==> forall i :: 0 <= i < n ==> |lists[i]| == 0
  {
    if n > 0 {
      FlatEmpty(lists, n - 1);
    }
  }

  /** Lists that agree on their first `n` elements flatten alike. */
  lemma {:induction false} FlatSame<L>(lists: seq<seq<L>>, others: seq<seq<L>>, n: nat)
    requires n <= |lists| && n <= |others| && forall k :: 0 <= k < n ==> lists[k] == others[k]
    ensures Flat(lists, n) == Flat(others, n)
  {
    if n > 0 {
      FlatSame(lists, others, n - 1);
    }
  }

  /** One more list adds its elements at the end. */
  lemma FlatSnoc<L>(lists: seq<seq<L>>, last: seq<L>)
    ensures Flat(lists + [last], |lists| + 1) == Flat(lists, |lists|) + last
  {
    FlatSame(lists + [last], lists, |lists|);
  }

  /** Two runs of lists, one after the other, flatten to the first run's elements followed by
      the second's. */
  lemma {:induction false} FlatConcat<L>(a: seq<seq<L>>, b: seq<seq<L>>)
    ensures Flat(a + b, |a| + |b|) == Flat(a, |a|) + Flat(b, |b|)
    decreases |b|
  {
    if |b| == 0 {
      assert a + b == a;
    } else {
      var init, last := b[..|b| - 1], b[|b| - 1];
      FlatConcat(a, init);
      assert a + b == (a + init) + [last];
      assert b == init + [last];
      FlatSnoc(a + init, last);
      FlatSnoc(init, last);
    }
  }

  /** Leaving out an empty list changes nothing. */
  lemma FlatSkipEmpty<L>(lists: seq<seq<L>>, i: nat)
    requires i < |lists| && |lists[i]| == 0
    ensures Flat(lists[..i] + lists[i + 1..], |lists| - 1) == Flat(lists, |lists|)
  {
    var before, after := lists[..i], lists[i + 1..];
    var upTo := before + [lists[i]];
    assert lists == upTo + after;
    FlatSnoc(before, lists[i]);
    var flatBefore := Flat(before, |before|);
    assert flatBefore + lists[i] == flatBefore;
    FlatConcat(upTo, after);
    FlatConcat(before, after);
  }

  /** A line is collected exactly when one of the URLs gave it. */
  lemma LinesFromPages<L>(pages: seq<Fetched>, extract: string -> seq<L>, n: nat, x: L)
    requires n <= |pages|
    ensures x in LinesWith(pages, extract, n) <==> exists i :: 0 <= i < n && x in PageLinesWith(pages[i], extract)
  {
    FlatMembers(PageLineLists(pages, extract), n, x);
  }

  /** No line is collected exactly when none of the URLs gave one. */
  lemma NoLinesWith<L>(pages: seq<Fetched>, extract: string -> seq<L>, n: nat)
    requires n <= |pages|
    ensures |LinesWith(pages, extract, n)| == 0 <==> forall i :: 0 <= i < n ==> |PageLinesWith(pages[i], extract)| == 0
  {
    FlatEmpty(PageLineLists(pages, extract), n);
  }

  /** A `null`, an empty page or an error is skipped: the run collects the same lines as
      without that URL, so one failed fetch does not stop the others. */
  lemma FailedFetchSkipped<L>(pages: seq<Fetched>, extract: string -> seq<L>, i: nat)
    requires i < |pages| && (pages[i].NoPage? || pages[i].Threw? || (pages[i].Page? && |pages[i].html| == 0))
    ensures LinesWith(pages[..i] + pages[i + 1..], extract, |pages| - 1) == LinesWith(pages, extract, |pages|)
  {
    var lists := PageLineLists(pages, extract);
    assert PageLineLists(pages[..i] + pages[i + 1..], extract) == lists[..i] + lists[i + 1..];
    FlatSkipEmpty(lists, i);
  }
}
