/**
 * What one call of `runOnce` (src/core.js) does as a whole, stated over the functions that
 * `Core.RunOnce` is proved to compute, and what a second call on the same pages does after it.
 */
module RunProperties {
  import opened Wrappers
  import opened Text
  import opened OrderedMap
  import opened Bridges
  import opened Parse
  import opened Dedupe
  import opened Telegram
  import opened Pages
  import opened Core

  // ---------------------------------------------------------------------------
  // A run that finds nothing

  /** The calls reporting a run that found lines: the announcement and the pause first when
      there are new lines, then the duplicate message, then the malformed message when there
      are refused lines, and no plain message otherwise. */
  lemma ReportNoticesShape(report: Report)
    ensures var notices, k := ReportNotices(report), if |report.newBridges.keys| > 0 then 2 else 0;
      k < |notices| && notices[k] == Grouped(DupTitle, report.duplicateBridges)
      && (|report.newBridges.keys| > 0 ==> notices[0] == Grouped(NewTitle, report.newBridges) && notices[1] == Delay(1000))
      && (|report.malformedBridges| > 0 ==> notices[|notices| - 1] == Message(MalformedText(report.malformedBridges)))
      && (|report.malformedBridges| == 0 ==> forall n :: n in notices ==> !n.Message?)
  {
  }

  /** No line is collected exactly when every URL failed, was `null` or gave a page without
      lines; then the failure message is the one call made, nothing is stored and the report is
      empty. A run that collected lines never sends the failure message alone. */
  lemma NoLinesOnlyFailure(files: Files, pages: seq<Fetched>, a: string, b: string)
    ensures |AllLines(pages)| == 0 <==> forall i :: 0 <= i < |pages| ==> |PageLines(pages[i])| == 0
    ensures NoticesFor(files, AllLines(pages), a) == [Message(FailText)] <==> |AllLines(pages)| == 0
    ensures |AllLines(pages)| == 0 ==>
      ReportFor(files, AllLines(pages), a) == Report(Empty(), Empty(), [])
      && FilesFor(files, AllLines(pages), a, b) == files
  {
    NoLinesWith(pages, ExtractPage, |pages|);
    var lines := AllLines(pages);
    if |lines| > 0 {
      ReportNoticesShape(ReportFor(files, lines, a));
    }
  }

  // ---------------------------------------------------------------------------
  // Storing

  /** With no lines there are no new lines. */
  lemma NothingNewOfNoLines(files: Files, a: string)
    ensures NewOf(files, [], a).keys == []
  {
    assert Items([], a) == [];
    assert Dedupe.Dedupe(KnownSetsOf(files), []).news == [];
  }

  /** A run only adds records at the end of each file, and what it adds to a category is one
      record per new line of that category, with the line as `bridge`, in the order of the new
      list. */
  lemma RunStoresNewLines(files: Files, lines: seq<string>, a: string, b: string, u: Category)
    ensures var before, after := FileOf(files, u), FileOf(FilesFor(files, lines, a, b), u);
      |before| <= |after| && after[..|before|] == before
      && BridgesOf(after[|before|..]) == ListOf(NewOf(files, lines, a), u)
  {
    var before, after := FileOf(files, u), FileOf(FilesFor(files, lines, a, b), u);
    if |lines| == 0 {
      NothingNewOfNoLines(files, a);
      assert after[|before|..] == [];
    } else {
      var newBy := NewOf(files, lines, a);
      var appends := KeyAppends(newBy, ClassifyAt(b), |newBy.keys|);
      AppliedFiles(files, appends, u);
      RunReclassifies(KnownSetsOf(files), lines, a, b);
      StoredNewLines(newBy, ClassifyAt(b), u);
      assert after[|before|..] == RecordsFor(appends, u);
    }
  }

  // ---------------------------------------------------------------------------
  // Notifying

  /** A line listed under a key is shown in the grouped message, whatever its title. */
  lemma KeyLineShown(title: string, g: OMap<string, seq<string>>, key: string, j: nat)
    requires g.Valid() && key in g.vals && j < |g.vals[key]|
    ensures Occurs(CodeLine(g.vals[key][j]), GroupedText(title, g))
  {
    var i :| 0 <= i < |g.keys| && g.keys[i] == key;
    LineInGroupedText(title, g, i, j);
  }

  /** The reported new lines hold the name of each category with new lines, with its list. */
  lemma NewLinesNamed(files: Files, lines: seq<string>, a: string, t: Category)
    requires |lines| > 0 && t in NewOf(files, lines, a).vals
    ensures var named := ReportFor(files, lines, a).newBridges;
      named.Valid() && |named.keys| > 0
      && NameOf(t) in named.vals && named.vals[NameOf(t)] == NewOf(files, lines, a).vals[t]
  {
    var newBy := NewOf(files, lines, a);
    NamesInjective();
    NamedUpTo(newBy, NameOf, |newBy.keys|);
    NamedLists(newBy, NameOf, t);
  }

  /** Every category with new lines is announced first: the first call sends the "Latest Tor
      Bridges" message, whose dictionary has the category's name with its new list. */
  lemma NewLinesAnnouncedFirst(files: Files, lines: seq<string>, a: string, t: Category, j: nat)
    requires |lines| > 0 && j < |ListOf(NewOf(files, lines, a), t)|
    ensures var report, notices := ReportFor(files, lines, a), NoticesFor(files, lines, a);
      |notices| > 0 && notices[0] == Grouped(NewTitle, report.newBridges)
      && NameOf(t) in report.newBridges.vals
      && report.newBridges.vals[NameOf(t)] == ListOf(NewOf(files, lines, a), t)
  {
    NewLinesNamed(files, lines, a, t);
    ReportNoticesShape(ReportFor(files, lines, a));
  }

  /** Every new line is shown as a code line in the text of the "Latest Tor Bridges" message. */
  lemma NewLineShown(files: Files, lines: seq<string>, a: string, t: Category, j: nat)
    requires |lines| > 0 && j < |ListOf(NewOf(files, lines, a), t)|
    ensures var named := ReportFor(files, lines, a).newBridges;
      named.Valid() && Occurs(CodeLine(ListOf(NewOf(files, lines, a), t)[j]), GroupedText(NewTitle, named))
  {
    var named := ReportFor(files, lines, a).newBridges;
    NewLinesNamed(files, lines, a, t);
    KeyLineShown(NewTitle, named, NameOf(t), j);
  }

  /** Every refused line is reported: the report lists it, and the last call sends the
      malformed message, which shows it as a code line. */
  lemma MalformedReported(files: Files, lines: seq<string>, a: string, x: string)
    requires x in lines && ParseAndClassifyBridge(x, a).None?
    ensures var ms, notices := Malformed(lines, a), NoticesFor(files, lines, a);
      x in ReportFor(files, lines, a).malformedBridges
      && |notices| > 0 && notices[|notices| - 1] == Message(MalformedText(ms))
      && Occurs(CodeLine(x), MalformedText(ms))
  {
    var ms := Malformed(lines, a);
    ReportNoticesShape(ReportFor(files, lines, a));
    Partition(lines, a, x, Category(Obfs4, false));
    var j :| 0 <= j < |ms| && ms[j] == x;
    MalformedLinesShown(ms, j);
  }

  /** With every line accepted, no malformed message is sent. */
  lemma NoMalformedMessage(files: Files, lines: seq<string>, a: string)
    requires |lines| > 0 && forall x :: x in lines ==> ParseAndClassifyBridge(x, a).Some?
    ensures ReportFor(files, lines, a).malformedBridges == []
    ensures forall n :: n in NoticesFor(files, lines, a) ==> !n.Message?
  {
    var ms := Malformed(lines, a);
    ReportNoticesShape(ReportFor(files, lines, a));
    if |ms| > 0 {
      Partition(lines, a, ms[0], Category(Obfs4, false));
      assert false;
    }
  }

  // ---------------------------------------------------------------------------
  // Running again

  /** The lines of category `t` among the first `n` entries are those of its entries. */
  lemma {:induction false} LinesOfMembers(es: seq<Entry>, t: Category, n: nat, x: string)
    requires n <= |es|
    ensures x in LinesOf(es, t, n) <==> exists j :: 0 <= j < n && es[j] == Entry(t, x)
  {
    if n > 0 {
      LinesOfMembers(es, t, n - 1, x);
    }
  }

  /** A record stays in its file after a run. */
  lemma RecordKept(files: Files, lines: seq<string>, a: string, b: string, t: Category, x: string)
    requires x in SetOf(KnownSetsOf(files), t)
    ensures x in SetOf(KnownSetsOf(FilesFor(files, lines, a, b)), t)
  {
    var before, after := FileOf(files, t), FileOf(FilesFor(files, lines, a, b), t);
    KnownOfRecords(files, t, x);
    var k :| 0 <= k < |before| && Trim(before[k].bridge) == x;
    RunStoresNewLines(files, lines, a, b, t);
    assert after[k] == after[..|before|][k];
    KnownOfRecords(FilesFor(files, lines, a, b), t, x);
  }

  /** A new line of a run is known after it, since its record was stored. */
  lemma NewLineKept(files: Files, lines: seq<string>, a: string, b: string, t: Category, m: nat)
    requires m < |ListOf(NewOf(files, lines, a), t)|
    ensures ListOf(NewOf(files, lines, a), t)[m] in SetOf(KnownSetsOf(FilesFor(files, lines, a, b)), t)
  {
    var x := ListOf(NewOf(files, lines, a), t)[m];
    var before, after := FileOf(files, t), FileOf(FilesFor(files, lines, a, b), t);
    RunStoresNewLines(files, lines, a, b, t);
    assert after[|before| + m].bridge == BridgesOf(after[|before|..])[m];
    NewLineOfItem(KnownSetsOf(files), Items(lines, a), t, x);
    var j :| 0 <= j < |Items(lines, a)| && Items(lines, a)[j].cat == t && Trim(Items(lines, a)[j].raw) == x;
    TrimIdempotent(Items(lines, a)[j].raw);
    KnownOfRecords(FilesFor(files, lines, a, b), t, x);
  }

  /** After a run, every trimmed line of its items is known under the item's category. */
  lemma ItemsKnownAfter(files: Files, lines: seq<string>, a: string, b: string)
    ensures var items, after := Items(lines, a), KnownSetsOf(FilesFor(files, lines, a, b));
      forall i :: 0 <= i < |items| ==> Trim(items[i].raw) in SetOf(after, items[i].cat)
  {
    var items, known := Items(lines, a), KnownSetsOf(files);
    var es := Trimmed(items);
    forall i | 0 <= i < |items|
      ensures Trim(items[i].raw) in SetOf(KnownSetsOf(FilesFor(files, lines, a, b)), items[i].cat)
    {
      var t, x := items[i].cat, Trim(items[i].raw);
      TrimmedAt(items, i);
      SeenMembers(es, t, |items|, x);
      KnownIsSeen(known, es, |items|, t);
      KnownGrowsByNewLines(known, items, t);
      if x in SetOf(known, t) {
        RecordKept(files, lines, a, b, t, x);
      } else {
        var newList := ListOf(NewOf(files, lines, a), t);
        assert x in newList;
        var m :| 0 <= m < |newList| && newList[m] == x;
        NewLineKept(files, lines, a, b, t, m);
      }
    }
  }

  /** Running again against the files a run left finds no new line. */
  lemma RerunNoNewKeys(files: Files, lines: seq<string>, a: string, b: string, c: string)
    ensures NewOf(FilesFor(files, lines, a, b), lines, c).keys == []
  {
    ItemsIgnoreTime(lines, a, c, |lines|);
    ItemsKnownAfter(files, lines, a, b);
    AllKnownNoNewKeys(KnownSetsOf(FilesFor(files, lines, a, b)), Items(lines, a));
  }

  /** Running again against the files a run left reports each line the run found new as a
      duplicate. */
  lemma RerunDuplicates(files: Files, lines: seq<string>, a: string, b: string, c: string, t: Category, x: string)
    requires x in ListOf(NewOf(files, lines, a), t)
    ensures x in ListOf(DupOf(FilesFor(files, lines, a, b), lines, c), t)
  {
    var known2 := KnownSetsOf(FilesFor(files, lines, a, b));
    var items := Items(lines, a);
    var es := Trimmed(items);
    ItemsIgnoreTime(lines, a, c, |lines|);
    ItemsKnownAfter(files, lines, a, b);
    NewLineOfItem(KnownSetsOf(files), items, t, x);
    var j :| 0 <= j < |items| && items[j].cat == t && Trim(items[j].raw) == x;
    TrimmedAt(items, j);
    forall i | 0 <= i < |es|
      ensures es[i].line in SetOf(known2, es[i].cat)
    {
      TrimmedAt(items, i);
    }
    AllKnownAllDuplicates(known2, es, t, |es|);
    DedupeIsReference(known2, items, t);
    LinesOfMembers(es, t, |es|, x);
  }

  /** Running again on the same pages, against the files the first run left, finds no new line,
      stores nothing, and reports every line the first run found new as a duplicate. */
  lemma RerunFindsNothingNew(files: Files, lines: seq<string>, a: string, b: string, c: string, d: string, t: Category, x: string)
    ensures NewOf(FilesFor(files, lines, a, b), lines, c).keys == []
    ensures FilesFor(FilesFor(files, lines, a, b), lines, c, d) == FilesFor(files, lines, a, b)
    ensures x in ListOf(NewOf(files, lines, a), t) ==> x in ListOf(DupOf(FilesFor(files, lines, a, b), lines, c), t)
  {
    RerunNoNewKeys(files, lines, a, b, c);
    if x in ListOf(NewOf(files, lines, a), t) {
      RerunDuplicates(files, lines, a, b, c, t, x);
    }
  }
}
