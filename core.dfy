/**
 * `runOnce` of src/core.js: read the stored records, fetch every page, extract
 * and classify the bridge lines, split them into new and duplicate lines per
 * category, store each new line's record, and report by Telegram.
 *
 * The collaborators are injected: the pages `fetchHtml` gives are a list of
 * results, the store is an object holding the records per category, and the
 * calls made to the notifier and to `delayMs` are returned as a list.
 */
module Core {
  import opened Wrappers
  import opened Text
  import opened OrderedMap
  import opened Bridges
  import opened Parse
  import opened FetchBridges
  import opened Dedupe
  import opened Telegram
  import opened Pages

  // ---------------------------------------------------------------------------
  // The store

  /** The records stored per category; a category without a key has a missing or unreadable
      file and reads as no records. */
  type Files = map<Category, seq<BridgeData>>

  /** The records of category `t`. */
  function FileOf(files: Files, t: Category): seq<BridgeData> {
    if t in files then files[t] else []
  }

  /** The files after `store.append(t, data)`: the record is added at the end of `t`'s file. */
  function WithRecord(files: Files, t: Category, data: BridgeData): Files {
    files[t := FileOf(files, t) + [data]]
  }

  /** The document `readAll` gives for a category's records. */
  function DocOf(records: seq<BridgeData>): Doc {
    Doc(seq(|records|, i requires 0 <= i < |records| => WithBridge(records[i].bridge)))
  }

  /** What `readAll` gives: one document per category, in the order of the four files. */
  function Docs(files: Files): (r: OMap<Category, Doc>)
    ensures r.Valid() && r.keys == AllCategories
  {
    OMap(AllCategories, map t | t in AllCategories :: DocOf(FileOf(files, t)))
  }

  /** Every category is one of the four. */
  lemma CategoryListed(t: Category)
    ensures t in AllCategories
  {
    match t
    case Category(Obfs4, false) => assert t == AllCategories[0];
    case Category(Obfs4, true) => assert t == AllCategories[1];
    case Category(Webtunnel, false) => assert t == AllCategories[2];
    case Category(Webtunnel, true) => assert t == AllCategories[3];
  }

  /** The known sets `toSets(readAll())` gives: per category, the trimmed `bridge` of its records. */
  function KnownSetsOf(files: Files): map<Category, set<string>> {
    map t | t in AllCategories :: KnownOf(DocOf(FileOf(files, t)))
  }

  /** A line is known for a category exactly when one of its records has it as trimmed `bridge`. */
  lemma KnownOfRecords(files: Files, t: Category, x: string)
    ensures x in SetOf(KnownSetsOf(files), t) <==> exists i :: 0 <= i < |FileOf(files, t)| && Trim(FileOf(files, t)[i].bridge) == x
  {
    CategoryListed(t);
    var records := FileOf(files, t);
    var doc := DocOf(records);
    KnownOfMembers(doc, x);
    if exists i :: 0 <= i < |records| && Trim(records[i].bridge) == x {
      var i :| 0 <= i < |records| && Trim(records[i].bridge) == x;
      assert doc.bridges[i].WithBridge? && Trim(doc.bridges[i].bridge) == x;
    }
  }

  /** The store handed to `runOnce`: `readAll` and `append` over the records per category. */
  class Store {
    var files: Files

    constructor(files: Files)
      ensures this.files == files
    {
      this.files := files;
    }

    /** `readAll()`: a document for each of the four categories. */
    method ReadAll() returns (docs: OMap<Category, Doc>)
      ensures docs == Docs(files)
    {
      docs := Docs(files);
    }

    /** `append(t, data)`: the record goes to the end of `t`'s file; other files are untouched. */
    method Append(t: Category, data: BridgeData)
      modifies this
      ensures files == WithRecord(old(files), t, data)
    {
      files := WithRecord(files, t, data);
    }
  }

  /** One `store.append` call. */
  datatype Append = Append(cat: Category, data: BridgeData)

  /** The files after a sequence of appends, made in order. */
  function Applied(files: Files, appends: seq<Append>): Files
    decreases |appends|
  {
    if |appends| == 0 then files
    else
      var last := appends[|appends| - 1];
      WithRecord(Applied(files, appends[..|appends| - 1]), last.cat, last.data)
  }

  /** The records a sequence of appends sends to category `t`, in order. */
  function RecordsFor(appends: seq<Append>, t: Category): seq<BridgeData>
    decreases |appends|
  {
    if |appends| == 0 then []
    else
      var last := appends[|appends| - 1];
      RecordsFor(appends[..|appends| - 1], t) + (if last.cat == t then [last.data] else [])
  }

  /** One more append is applied after the others. */
  lemma AppliedSnoc(files: Files, appends: seq<Append>, a: Append)
    ensures Applied(files, appends + [a]) == WithRecord(Applied(files, appends), a.cat, a.data)
  {
    assert (appends + [a])[..|appends|] == appends;
  }

  /** Appends only add records: each category's file ends with the records sent to it, in the
      order they were sent, and keeps the ones it had in front. */
  lemma {:induction false} AppliedFiles(files: Files, appends: seq<Append>, t: Category)
    ensures FileOf(Applied(files, appends), t) == FileOf(files, t) + RecordsFor(appends, t)
    decreases |appends|
  {
    if appends != [] {
      AppliedFiles(files, appends[..|appends| - 1], t);
    }
  }

  // ---------------------------------------------------------------------------
  // The lines fetched

  /** `extractBridgeLinesRegex(html)`. */
  function ExtractPage(html: string): seq<string> {
    Extracted(Some(html))
  }

  /** The lines one URL adds. */
  function PageLines(f: Fetched): seq<string> {
    PageLinesWith(f, ExtractPage)
  }

  /** The lines `runOnce` collects: URL by URL, each page's lines in the extractor's order. */
  function AllLines(pages: seq<Fetched>): seq<string> {
    LinesWith(pages, ExtractPage, |pages|)
  }

  // ---------------------------------------------------------------------------
  // Classifying the lines

  /** `parseAndClassifyBridge` with the run's timestamp. */
  function ClassifyAt(now: string): string -> Option<Classified> {
    line => ParseAndClassifyBridge(line, now)
  }

  /** The classification of each line. */
  function Results(lines: seq<string>, classify: string -> Option<Classified>): (r: seq<Option<Classified>>)
    ensures |r| == |lines| && forall i :: 0 <= i < |lines| ==> r[i] == classify(lines[i])
  {
    seq(|lines|, i requires 0 <= i < |lines| => classify(lines[i]))
  }

  /** The accepted lines among the first `n`, in order, each with the category it was given. */
  function ItemsUpTo(lines: seq<string>, results: seq<Option<Classified>>, n: nat): seq<Item>
    requires n <= |lines| == |results|
  {
    if n == 0 then []
    else ItemsUpTo(lines, results, n - 1) + (if results[n - 1].Some? then [Item(results[n - 1].value.cat, lines[n - 1])] else [])
  }

  /** The refused lines among the first `n`, in order. */
  function MalformedUpTo(lines: seq<string>, results: seq<Option<Classified>>, n: nat): seq<string>
    requires n <= |lines| == |results|
  {
    if n == 0 then []
    else MalformedUpTo(lines, results, n - 1) + (if results[n - 1].None? then [lines[n - 1]] else [])
  }

  /** The items of a run. */
  function Items(lines: seq<string>, now: string): seq<Item> {
    ItemsUpTo(lines, Results(lines, ClassifyAt(now)), |lines|)
  }

  /** The malformed lines of a run. */
  function Malformed(lines: seq<string>, now: string): seq<string> {
    MalformedUpTo(lines, Results(lines, ClassifyAt(now)), |lines|)
  }

  /** Every line goes to one side or the other. */
  lemma {:induction false} PartitionCount(lines: seq<string>, results: seq<Option<Classified>>, n: nat)
    requires n <= |lines| == |results|
    ensures |ItemsUpTo(lines, results, n)| + |MalformedUpTo(lines, results, n)| == n
  {
    if n > 0 {
      PartitionCount(lines, results, n - 1);
    }
  }

  /** The refused lines are exactly the lines whose result is `null`. */
  lemma {:induction false} MalformedUpToMembers(lines: seq<string>, results: seq<Option<Classified>>, n: nat, x: string)
    requires n <= |lines| == |results|
    ensures x in MalformedUpTo(lines, results, n) <==> exists i :: 0 <= i < n && lines[i] == x && results[i].None?
  {
    if n > 0 {
      MalformedUpToMembers(lines, results, n - 1, x);
    }
  }

  /** The items are exactly the lines with a result, under its category. */
  lemma {:induction false} ItemsUpToMembers(lines: seq<string>, results: seq<Option<Classified>>, n: nat, it: Item)
    requires n <= |lines| == |results|
    ensures it in ItemsUpTo(lines, results, n) <==>
      exists i :: 0 <= i < n && lines[i] == it.raw && results[i].Some? && results[i].value.cat == it.cat
  {
    if n > 0 {
      ItemsUpToMembers(lines, results, n - 1, it);
    }
  }

  /** Every collected line lands on exactly one side: the malformed list holds the lines the
      classifier refuses and the items the lines it accepts, under the category it gives. */
  lemma Partition(lines: seq<string>, now: string, x: string, t: Category)
    ensures |Items(lines, now)| + |Malformed(lines, now)| == |lines|
    ensures x in Malformed(lines, now) <==> x in lines && ParseAndClassifyBridge(x, now).None?
    ensures Item(t, x) in Items(lines, now) <==>
      x in lines && ParseAndClassifyBridge(x, now).Some? && ParseAndClassifyBridge(x, now).value.cat == t
  {
    var results := Results(lines, ClassifyAt(now));
    PartitionCount(lines, results, |lines|);
    MalformedUpToMembers(lines, results, |lines|, x);
    ItemsUpToMembers(lines, results, |lines|, Item(t, x));
  }

  /** The timestamp only goes into `addedAt`: whether a line is accepted, its category and its
      `bridge` do not depend on it. */
  lemma ClassifyIgnoresTime(line: string, a: string, b: string)
    ensures ParseAndClassifyBridge(line, a).Some? == ParseAndClassifyBridge(line, b).Some?
    ensures ParseAndClassifyBridge(line, a).Some? ==>
      ParseAndClassifyBridge(line, a).value.cat == ParseAndClassifyBridge(line, b).value.cat
      && ParseAndClassifyBridge(line, a).value.data.bridge == ParseAndClassifyBridge(line, b).value.data.bridge
  {
  }

  /** The items do not depend on the timestamp. */
  lemma {:induction false} ItemsIgnoreTime(lines: seq<string>, a: string, b: string, n: nat)
    requires n <= |lines|
    ensures ItemsUpTo(lines, Results(lines, ClassifyAt(a)), n) == ItemsUpTo(lines, Results(lines, ClassifyAt(b)), n)
  {
    if n > 0 {
      ItemsIgnoreTime(lines, a, b, n - 1);
      ClassifyIgnoresTime(lines[n - 1], a, b);
    }
  }

  // ---------------------------------------------------------------------------
  // Storing the new lines

  /** The appends for the first `n` lines of a list whose classifications are `results`: the
      record of each accepted line, under the category it is given. */
  function AppendsOf(results: seq<Option<Classified>>, n: nat): seq<Append>
    requires n <= |results|
  {
    if n == 0 then []
    else AppendsOf(results, n - 1) + (if results[n - 1].Some? then [Append(results[n - 1].value.cat, results[n - 1].value.data)] else [])
  }

  /** The appends for each category of the new lines, in key order. */
  function KeyChunks(newBy: OMap<Category, seq<string>>, classify: string -> Option<Classified>): (r: seq<seq<Append>>)
    requires newBy.Valid()
    ensures |r| == |newBy.keys|
    ensures forall i :: 0 <= i < |r| ==>
      r[i] == AppendsOf(Results(newBy.vals[newBy.keys[i]], classify), |newBy.vals[newBy.keys[i]]|)
  {
    seq(|newBy.keys|, i requires 0 <= i < |newBy.keys| =>
      AppendsOf(Results(newBy.vals[newBy.keys[i]], classify), |newBy.vals[newBy.keys[i]]|))
  }

  /** The appends of the store loop for the first `k` categories of the new lines. */
  function KeyAppends(newBy: OMap<Category, seq<string>>, classify: string -> Option<Classified>, k: nat): seq<Append>
    requires newBy.Valid() && k <= |newBy.keys|
  {
    Flat(KeyChunks(newBy, classify), k)
  }

  /** The `bridge` of each record, in order. */
  function BridgesOf(records: seq<BridgeData>): (r: seq<string>)
    ensures |r| == |records| && forall i :: 0 <= i < |records| ==> r[i] == records[i].bridge
  {
    seq(|records|, i requires 0 <= i < |records| => records[i].bridge)
  }

  /** The records sent to `t` by two runs of appends are those of the first, then the second. */
  lemma {:induction false} RecordsForAppend(a: seq<Append>, b: seq<Append>, t: Category)
    ensures RecordsFor(a + b, t) == RecordsFor(a, t) + RecordsFor(b, t)
    decreases |b|
  {
    if b == [] {
      assert a + b == a;
    } else {
      var init := b[..|b| - 1];
      var last := b[|b| - 1];
      assert (a + b)[..|a + b| - 1] == a + init;
      assert (a + b)[|a + b| - 1] == last;
      RecordsForAppend(a, init, t);
      var tail := if last.cat == t then [last.data] else [];
      assert RecordsFor(a + b, t) == RecordsFor(a + init, t) + tail;
      assert RecordsFor(b, t) == RecordsFor(init, t) + tail;
      AppendTwice(RecordsFor(a, t), RecordsFor(init, t), tail);
    }
  }

  /** When every line of a list is accepted under `t` with itself as `bridge`, its appends send
      the lines, in order, to `t`, and nothing to any other category. */
  lemma {:induction false} LineRecords(lines: seq<string>, results: seq<Option<Classified>>, n: nat, t: Category, u: Category)
    requires n <= |lines| == |results|
    requires forall j :: 0 <= j < |lines| ==>
      results[j].Some? && results[j].value.cat == t && results[j].value.data.bridge == lines[j]
    ensures BridgesOf(RecordsFor(AppendsOf(results, n), u)) == if u == t then lines[..n] else []
  {
    if n > 0 {
      LineRecords(lines, results, n - 1, t, u);
      var prev := AppendsOf(results, n - 1);
      var a := Append(t, results[n - 1].value.data);
      assert AppendsOf(results, n) == prev + [a];
      assert (prev + [a])[..|prev|] == prev;
      if u == t {
        BridgesOfAppend(RecordsFor(prev, u), [a.data]);
        assert lines[..n] == lines[..n - 1] + [lines[n - 1]];
      } else {
        assert RecordsFor(prev + [a], u) == RecordsFor(prev, u);
      }
    }
  }

  /** Every line of a list is accepted under `t` with itself as `bridge`. */
  ghost predicate AcceptedAs(lines: seq<string>, classify: string -> Option<Classified>, t: Category) {
    forall j :: 0 <= j < |lines| ==>
      classify(lines[j]).Some? && classify(lines[j]).value.cat == t && classify(lines[j]).value.data.bridge == lines[j]
  }

  /** Every new list is accepted under its category, each line with itself as `bridge`. */
  ghost predicate Reclassifies(newBy: OMap<Category, seq<string>>, classify: string -> Option<Classified>) {
    forall t :: t in newBy.vals ==> AcceptedAs(newBy.vals[t], classify, t)
  }

  /** A new line is the trimmed raw line of an item of its category. */
  lemma NewLineOfItem(known: map<Category, set<string>>, items: seq<Item>, t: Category, x: string)
    requires x in ListOf(NewByType(known, items), t)
    ensures exists j :: 0 <= j < |items| && items[j].cat == t && Trim(items[j].raw) == x
  {
    var es := Trimmed(items);
    DedupeIsReference(known, items, t);
    NewLinesAreUnknown(known, es, t, |items|);
    SeenMembers(es, t, |items|, x);
    var j :| 0 <= j < |items| && es[j] == Entry(t, x);
    TrimmedAt(items, j);
  }

  /** When the classifier accepts every item's trimmed line under the item's category, with that
      line as `bridge`, it accepts every new list the same way. */
  lemma NewListsReclassify(known: map<Category, set<string>>, items: seq<Item>, classify: string -> Option<Classified>)
    requires forall j :: 0 <= j < |items| ==>
      classify(Trim(items[j].raw)).Some? && classify(Trim(items[j].raw)).value.cat == items[j].cat
      && classify(Trim(items[j].raw)).value.data.bridge == Trim(items[j].raw)
    ensures Reclassifies(NewByType(known, items), classify)
  {
    var newBy := NewByType(known, items);
    forall t | t in newBy.vals ensures AcceptedAs(newBy.vals[t], classify, t) {
      forall k | 0 <= k < |newBy.vals[t]|
        ensures classify(newBy.vals[t][k]).Some? && classify(newBy.vals[t][k]).value.cat == t
          && classify(newBy.vals[t][k]).value.data.bridge == newBy.vals[t][k]
      {
        NewLineOfItem(known, items, t, newBy.vals[t][k]);
      }
    }
  }

  /** A line the classifier accepts at one time is accepted, trimmed, at any other time under
      the same category, with the trimmed line as `bridge`. */
  lemma ReclassifyTrimmed(raw: string, a: string, b: string)
    requires ParseAndClassifyBridge(raw, a).Some?
    ensures ParseAndClassifyBridge(Trim(raw), b).Some?
    ensures ParseAndClassifyBridge(Trim(raw), b).value.cat == ParseAndClassifyBridge(raw, a).value.cat
    ensures ParseAndClassifyBridge(Trim(raw), b).value.data.bridge == Trim(raw)
  {
    ClassifyIgnoresTime(raw, a, b);
    ParseOfTrim(raw, b);
  }

  /** Every item of a run is accepted again, trimmed, at the time of storing. */
  lemma ItemsReclassify(lines: seq<string>, a: string, b: string)
    ensures var items := Items(lines, a);
      forall j :: 0 <= j < |items| ==>
        ParseAndClassifyBridge(Trim(items[j].raw), b).Some?
        && ParseAndClassifyBridge(Trim(items[j].raw), b).value.cat == items[j].cat
        && ParseAndClassifyBridge(Trim(items[j].raw), b).value.data.bridge == Trim(items[j].raw)
  {
    var items := Items(lines, a);
    forall j | 0 <= j < |items|
      ensures ParseAndClassifyBridge(Trim(items[j].raw), b).Some?
        && ParseAndClassifyBridge(Trim(items[j].raw), b).value.cat == items[j].cat
        && ParseAndClassifyBridge(Trim(items[j].raw), b).value.data.bridge == Trim(items[j].raw)
    {
      Partition(lines, a, items[j].raw, items[j].cat);
      ReclassifyTrimmed(items[j].raw, a, b);
    }
  }

  /** The new lists of a run, classified again at the time of storing, are accepted under their
      category with themselves as `bridge`. */
  lemma RunReclassifies(known: map<Category, set<string>>, lines: seq<string>, a: string, b: string)
    ensures Reclassifies(NewByType(known, Items(lines, a)), ClassifyAt(b))
  {
    var items := Items(lines, a);
    ItemsReclassify(lines, a, b);
    NewListsReclassify(known, items, ClassifyAt(b));
  }

  /** The bridges of two runs of records are those of the first, then the second. */
  lemma BridgesOfAppend(a: seq<BridgeData>, b: seq<BridgeData>)
    ensures BridgesOf(a + b) == BridgesOf(a) + BridgesOf(b)
  {
  }

  /** The appends for one new list send its lines, in order, to its category and to no other. */
  lemma ListRecords(newBy: OMap<Category, seq<string>>, classify: string -> Option<Classified>, t: Category, u: Category)
    requires Reclassifies(newBy, classify) && t in newBy.vals
    ensures var lines := newBy.vals[t];
      BridgesOf(RecordsFor(AppendsOf(Results(lines, classify), |lines|), u)) == if u == t then lines else []
  {
    var lines := newBy.vals[t];
    assert AcceptedAs(lines, classify, t);
    LineRecords(lines, Results(lines, classify), |lines|, t, u);
    assert lines[..|lines|] == lines;
  }

  /** The records two runs of appends send to `u` have the bridges of the first run's, then
      those of the second run's. */
  lemma StepRecords(earlier: seq<Append>, chunk: seq<Append>, u: Category)
    ensures BridgesOf(RecordsFor(earlier + chunk, u)) == BridgesOf(RecordsFor(earlier, u)) + BridgesOf(RecordsFor(chunk, u))
  {
    RecordsForAppend(earlier, chunk, u);
    BridgesOfAppend(RecordsFor(earlier, u), RecordsFor(chunk, u));
  }

  /** A map of runs that distributes over `+` maps the runs one after the other to its images
      one after the other. */
  lemma {:induction false} FlatMap<A, B>(parts: seq<seq<A>>, images: seq<seq<B>>, g: seq<A> -> seq<B>, k: nat)
    requires k <= |parts| == |images|
    requires forall a, b :: g(a + b) == g(a) + g(b)
    requires forall i :: 0 <= i < |parts| ==> g(parts[i]) == images[i]
    ensures g(Flat(parts, k)) == Flat(images, k)
  {
    if k == 0 {
      assert g([]) == g([] + []) == g([]) + g([]);
    } else {
      FlatMap(parts, images, g, k - 1);
      assert g(Flat(parts, k - 1) + parts[k - 1]) == g(Flat(parts, k - 1)) + g(parts[k - 1]);
    }
  }

  /** When every run but the `j`th is empty, the runs one after the other are that one run. */
  lemma {:induction false} FlatSingle<T>(parts: seq<seq<T>>, k: nat, j: nat)
    requires k <= |parts|
    requires forall i :: 0 <= i < k && i != j ==> parts[i] == []
    ensures Flat(parts, k) == if j < k then parts[j] else []
  {
    if k > 0 {
      FlatSingle(parts, k - 1, j);
      if j == k - 1 {
        FlatSingle(parts, k - 1, k);
      }
    }
  }

  /** The appends for the `i`th new list send its lines to its key and nothing elsewhere. */
  lemma ChunkRecords(newBy: OMap<Category, seq<string>>, classify: string -> Option<Classified>, i: nat, u: Category)
    requires newBy.Valid() && Reclassifies(newBy, classify) && i < |newBy.keys|
    ensures BridgesOf(RecordsFor(KeyChunks(newBy, classify)[i], u))
      == if newBy.keys[i] == u then newBy.vals[newBy.keys[i]] else []
  {
    ListRecords(newBy, classify, newBy.keys[i], u);
  }

  /** The bridges sent to `u` distribute over `+` of appends. */
  lemma RecordsDistribute(u: Category)
    ensures forall a, b :: BridgesOf(RecordsFor(a + b, u)) == BridgesOf(RecordsFor(a, u)) + BridgesOf(RecordsFor(b, u))
  {
    forall a, b ensures BridgesOf(RecordsFor(a + b, u)) == BridgesOf(RecordsFor(a, u)) + BridgesOf(RecordsFor(b, u)) {
      StepRecords(a, b, u);
    }
  }

  /** Runs of appends, one after the other, send to `u` the bridges each sends, one after the
      other. */
  lemma FlatRecords(parts: seq<seq<Append>>, images: seq<seq<string>>, u: Category)
    requires |parts| == |images|
    requires forall i :: 0 <= i < |parts| ==> BridgesOf(RecordsFor(parts[i], u)) == images[i]
    ensures BridgesOf(RecordsFor(Flat(parts, |parts|), u)) == Flat(images, |images|)
  {
    RecordsDistribute(u);
    FlatMap(parts, images, x => BridgesOf(RecordsFor(x, u)), |parts|);
  }

  /** For each new list in key order, the list if its key is `u` and nothing otherwise. */
  function ListsFor(newBy: OMap<Category, seq<string>>, u: Category): seq<seq<string>>
    requires newBy.Valid()
  {
    seq(|newBy.keys|, i requires 0 <= i < |newBy.keys| => if newBy.keys[i] == u then newBy.vals[newBy.keys[i]] else [])
  }

  /** The appends for each new list send to `u` that list when its key is `u`, and nothing
      otherwise. */
  lemma ChunksRecords(newBy: OMap<Category, seq<string>>, classify: string -> Option<Classified>, u: Category)
    requires newBy.Valid() && Reclassifies(newBy, classify)
    ensures |KeyChunks(newBy, classify)| == |ListsFor(newBy, u)|
    ensures forall i :: 0 <= i < |KeyChunks(newBy, classify)| ==>
      BridgesOf(RecordsFor(KeyChunks(newBy, classify)[i], u)) == ListsFor(newBy, u)[i]
  {
    forall i | 0 <= i < |KeyChunks(newBy, classify)|
      ensures BridgesOf(RecordsFor(KeyChunks(newBy, classify)[i], u)) == ListsFor(newBy, u)[i]
    {
      ChunkRecords(newBy, classify, i, u);
    }
  }

  /** The keys being distinct, only `u`'s own list is picked for `u`. */
  lemma ListsForFlat(newBy: OMap<Category, seq<string>>, u: Category)
    requires newBy.Valid()
    ensures Flat(ListsFor(newBy, u), |newBy.keys|) == ListOf(newBy, u)
  {
    var keys := newBy.keys;
    if u in newBy.vals {
      var j :| 0 <= j < |keys| && keys[j] == u;
      FlatSingle(ListsFor(newBy, u), |keys|, j);
    } else {
      FlatSingle(ListsFor(newBy, u), |keys|, |keys|);
    }
  }

  /** The store loop makes exactly one append per new line, to the line's category, in the
      order of that category's list. */
  lemma StoredNewLines(newBy: OMap<Category, seq<string>>, classify: string -> Option<Classified>, u: Category)
    requires newBy.Valid() && Reclassifies(newBy, classify)
    ensures BridgesOf(RecordsFor(KeyAppends(newBy, classify, |newBy.keys|), u)) == ListOf(newBy, u)
  {
    ChunksRecords(newBy, classify, u);
    FlatRecords(KeyChunks(newBy, classify), ListsFor(newBy, u), u);
    ListsForFlat(newBy, u);
  }

  /** Applying two runs of appends one after the other is applying the first, then the second. */
  lemma {:induction false} AppliedConcat(files: Files, a: seq<Append>, b: seq<Append>)
    ensures Applied(files, a + b) == Applied(Applied(files, a), b)
    decreases |b|
  {
    if |b| == 0 {
      assert a + b == a;
    } else {
      var init, last := b[..|b| - 1], b[|b| - 1];
      assert a + b == (a + init) + [last];
      assert b == init + [last];
      AppliedConcat(files, a, init);
      AppliedSnoc(files, a + init, last);
      AppliedSnoc(Applied(files, a), init, last);
    }
  }

  // ---------------------------------------------------------------------------
  // The dictionaries reported

  /** The name of a category, as a function value. */
  function NameOf(t: Category): string {
    t.Name()
  }

  /** A naming of keys that gives different keys different names. */
  ghost predicate Injective<K(!new)>(name: K -> string) {
    forall a, b :: name(a) == name(b) ==> a == b
  }

  /** Different categories have different names. */
  lemma NamesInjective()
    ensures Injective(NameOf)
  {
    forall a: Category, b: Category ensures NameOf(a) == NameOf(b) ==> a == b {
      NameInjective(a, b);
    }
  }

  /** The dictionary keyed by name that copying the first `n` entries of `m` one by one builds,
      as `newBridges[t] = arr` and `duplicateBridges[t] = arr` do. */
  function Named<K(==,!new)>(m: OMap<K, seq<string>>, name: K -> string, n: nat): OMap<string, seq<string>>
    requires m.Valid() && n <= |m.keys|
  {
    if n == 0 then Empty() else Named(m, name, n - 1).Put(name(m.keys[n - 1]), m.vals[m.keys[n - 1]])
  }

  /** Copying keeps the key order, under the keys' names. */
  lemma {:induction false} NamedKeys<K(!new)>(m: OMap<K, seq<string>>, name: K -> string, n: nat)
    requires m.Valid() && n <= |m.keys| && Injective(name)
    ensures Named(m, name, n).Valid() && |Named(m, name, n).keys| == n
    ensures forall i :: 0 <= i < n ==> Named(m, name, n).keys[i] == name(m.keys[i])
  {
    if n > 0 {
      NamedKeys(m, name, n - 1);
      var prev := Named(m, name, n - 1);
      var t := m.keys[n - 1];
      assert name(t) !in prev.keys;
      prev.PutKeepsValid(name(t), m.vals[t]);
    }
  }

  /** Copying keeps each list, under its key's name. */
  lemma {:induction false} NamedVals<K(!new)>(m: OMap<K, seq<string>>, name: K -> string, n: nat)
    requires m.Valid() && n <= |m.keys| && Injective(name)
    ensures forall i :: 0 <= i < n ==>
      name(m.keys[i]) in Named(m, name, n).vals && Named(m, name, n).vals[name(m.keys[i])] == m.vals[m.keys[i]]
  {
    if n > 0 {
      NamedVals(m, name, n - 1);
      forall i | 0 <= i < n - 1 ensures name(m.keys[i]) != name(m.keys[n - 1]) {
        assert m.keys[i] != m.keys[n - 1];
      }
    }
  }

  /** Copying keeps the key order, under the keys' names, and each list. */
  lemma NamedUpTo<K(!new)>(m: OMap<K, seq<string>>, name: K -> string, n: nat)
    requires m.Valid() && n <= |m.keys| && Injective(name)
    ensures Named(m, name, n).Valid() && |Named(m, name, n).keys| == n
    ensures forall i :: 0 <= i < n ==> Named(m, name, n).keys[i] == name(m.keys[i])
    ensures forall i :: 0 <= i < n ==> Named(m, name, n).vals[name(m.keys[i])] == m.vals[m.keys[i]]
  {
    NamedKeys(m, name, n);
    NamedVals(m, name, n);
  }

  /** The reported dictionary has a key's name exactly when the grouping has the key, and then
      the same list. */
  lemma NamedLists<K(!new)>(m: OMap<K, seq<string>>, name: K -> string, t: K)
    requires m.Valid() && Injective(name)
    ensures name(t) in Named(m, name, |m.keys|).vals <==> t in m.vals
    ensures t in m.vals ==> Named(m, name, |m.keys|).vals[name(t)] == m.vals[t]
  {
    NamedUpTo(m, name, |m.keys|);
    var r := Named(m, name, |m.keys|);
    if name(t) in r.vals {
      var i :| 0 <= i < |r.keys| && r.keys[i] == name(t);
    }
    if t in m.vals {
      var i :| 0 <= i < |m.keys| && m.keys[i] == t;
    }
  }

  /** `for (const [t, arr] of Object.entries(m)) r[t] = arr`, starting from `{}`. */
  method NameAll(m: OMap<Category, seq<string>>) returns (r: OMap<string, seq<string>>)
    requires m.Valid()
    ensures r == Named(m, NameOf, |m.keys|)
  {
    var entries := m.Entries();
    r := Empty();
    for i := 0 to |entries|
      invariant r == Named(m, NameOf, i)
    {
      var (t, arr) := entries[i];
      r := r.Put(NameOf(t), arr);
    }
  }

  // ---------------------------------------------------------------------------
  // The notifications

  /** One call `runOnce` makes on the notifier or on `delayMs`. */
  datatype Notice =
    | Message(html: string)                                        // telegram.sendMessage(html)
    | Grouped(title: string, grouped: OMap<string, seq<string>>)   // telegram.sendGrouped(title, grouped)
    | Delay(ms: nat)                                               // delayMs(ms)

  /** The message sent when no page gave a line. */
  const FailText: string := "❌ <b>Failed to fetch any bridges.</b>\nPlease check logs or try again later."

  /** The title of the new lines' message. */
  const NewTitle: string := "🚀 Latest Tor Bridges"

  /** The title of the duplicate lines' message. */
  const DupTitle: string := "Duplicate Bridges Found"

  /** The opening of the malformed lines' message. */
  const MalformedHead: string := "<b>Malformed Bridges Found:</b>\n\n"

  /** The malformed lines' message: the opening, then each line as a code line. */
  function MalformedText(ms: seq<string>): string {
    MalformedHead + CodeLines(ms, |ms|)
  }

  /** The malformed message opens with its heading and shows every malformed line. */
  lemma MalformedLinesShown(ms: seq<string>, j: nat)
    requires j < |ms|
    ensures |MalformedHead| <= |MalformedText(ms)| && MalformedText(ms)[..|MalformedHead|] == MalformedHead
    ensures Occurs(CodeLine(ms[j]), MalformedText(ms))
  {
    LineInCodeLines(ms, |ms|, j);
    OccursAfter(CodeLine(ms[j]), MalformedHead, CodeLines(ms, |ms|));
  }

  /** The loop that builds the malformed lines' message. */
  method MalformedMessage(ms: seq<string>) returns (msg: string)
    ensures msg == MalformedText(ms)
  {
    msg := MalformedHead;
    for i := 0 to |ms|
      invariant msg == MalformedHead + CodeLines(ms, i)
    {
      AppendTwice(MalformedHead, CodeLines(ms, i), CodeLine(ms[i]));
      msg := msg + CodeLine(ms[i]);
    }
  }

  /** What `runOnce` returns. */
  datatype Report = Report(
    newBridges: OMap<string, seq<string>>,
    duplicateBridges: OMap<string, seq<string>>,
    malformedBridges: seq<string>)

  /** The calls that report a run which found lines: the new lines and a one-second pause when
      there are any, the duplicate lines always, the malformed lines when there are any. */
  function ReportNotices(report: Report): seq<Notice> {
    (if |report.newBridges.keys| > 0 then [Grouped(NewTitle, report.newBridges), Delay(1000)] else [])
    + [Grouped(DupTitle, report.duplicateBridges)]
    + (if |report.malformedBridges| > 0 then [Message(MalformedText(report.malformedBridges))] else [])
  }

  // ---------------------------------------------------------------------------
  // One run

  /** The new lines of a run, per category. */
  function NewOf(files: Files, lines: seq<string>, a: string): (r: OMap<Category, seq<string>>)
    ensures r.Valid()
  {
    DedupeNonEmptyLists(KnownSetsOf(files), Items(lines, a));
    NewByType(KnownSetsOf(files), Items(lines, a))
  }

  /** The duplicate lines of a run, per category. */
  function DupOf(files: Files, lines: seq<string>, a: string): (r: OMap<Category, seq<string>>)
    ensures r.Valid()
  {
    DedupeNonEmptyLists(KnownSetsOf(files), Items(lines, a));
    DupByType(KnownSetsOf(files), Items(lines, a))
  }

  /** What a run that collected `lines` returns, the lines being classified at time `a`. */
  function ReportFor(files: Files, lines: seq<string>, a: string): Report {
    if lines == [] then Report(Empty(), Empty(), [])
    else
      var newBy, dupBy := NewOf(files, lines, a), DupOf(files, lines, a);
      Report(Named(newBy, NameOf, |newBy.keys|), Named(dupBy, NameOf, |dupBy.keys|), Malformed(lines, a))
  }

  /** The calls a run that collected `lines` makes on the notifier and on `delayMs`. */
  function NoticesFor(files: Files, lines: seq<string>, a: string): seq<Notice> {
    if lines == [] then [Message(FailText)] else ReportNotices(ReportFor(files, lines, a))
  }

  /** The files after a run that collected `lines`, the new lines being classified again at
      time `b` for storing. */
  function FilesFor(files: Files, lines: seq<string>, a: string, b: string): Files {
    if lines == [] then files
    else
      var newBy := NewOf(files, lines, a);
      Applied(files, KeyAppends(newBy, ClassifyAt(b), |newBy.keys|))
  }

  /** `readAll` then `toSets` gives the known sets of the files. */
  lemma KnownFromDocs(files: Files, sets: map<Category, set<string>>)
    requires sets.Keys == Docs(files).vals.Keys
    requires forall t :: t in sets ==> sets[t] == KnownOf(Docs(files).vals[t])
    ensures sets == KnownSetsOf(files)
  {
  }

  /** The fetch loop: the lines of each page that is neither missing, empty nor an error, URL
      by URL. */
  method CollectLines(pages: seq<Fetched>) returns (lines: seq<string>)
    ensures lines == AllLines(pages)
  {
    lines := [];
    for i := 0 to |pages|
      invariant lines == LinesWith(pages, ExtractPage, i)
    {
      var found := FetchedLines(pages[i]);
      lines := PushAll(lines, found);
    }
  }

  /** `for (const l of found) lines.push(l)`. */
  method PushAll(lines: seq<string>, found: seq<string>) returns (r: seq<string>)
    ensures r == lines + found
  {
    r := lines;
    for j := 0 to |found|
      invariant r == lines + found[..j]
    {
      assert found[..j + 1] == found[..j] + [found[j]];
      r := r + [found[j]];
    }
    assert found[..|found|] == found;
  }

  /** The lines one fetch adds. */
  method FetchedLines(page: Fetched) returns (found: seq<string>)
    ensures found == PageLines(page)
  {
    found := [];
    match page
    case Page(html) =>
      if |html| > 0 {
        found := ExtractBridgeLinesRegex(Some(html));
      }
    case _ =>
  }

  /** The classification loop: each line to the malformed list or to the items. */
  method ClassifyLines(lines: seq<string>, classify: string -> Option<Classified>) returns (items: seq<Item>, malformed: seq<string>)
    ensures items == ItemsUpTo(lines, Results(lines, classify), |lines|)
    ensures malformed == MalformedUpTo(lines, Results(lines, classify), |lines|)
  {
    items, malformed := [], [];
    for i := 0 to |lines|
      invariant items == ItemsUpTo(lines, Results(lines, classify), i)
      invariant malformed == MalformedUpTo(lines, Results(lines, classify), i)
    {
      var p := classify(lines[i]);
      if p.None? {
        malformed := malformed + [lines[i]];
      } else {
        items := items + [Item(p.value.cat, lines[i])];
      }
    }
  }

  /** The inner store loop: the record of each line of one new list the classifier accepts. */
  method StoreList(store: Store, arr: seq<string>, classify: string -> Option<Classified>)
    modifies store
    ensures store.files == Applied(old(store.files), AppendsOf(Results(arr, classify), |arr|))
  {
    for j := 0 to |arr|
      invariant store.files == Applied(old(store.files), AppendsOf(Results(arr, classify), j))
    {
      var p := classify(arr[j]);
      AppliedStep(old(store.files), Results(arr, classify), j);
      if p.Some? {
        store.Append(p.value.cat, p.value.data);
      }
    }
  }

  /** One more classification result adds its record, if any, to the files. */
  lemma AppliedStep(files: Files, results: seq<Option<Classified>>, j: nat)
    requires j < |results|
    ensures results[j].None? ==> Applied(files, AppendsOf(results, j + 1)) == Applied(files, AppendsOf(results, j))
    ensures results[j].Some? ==>
      Applied(files, AppendsOf(results, j + 1)) == WithRecord(Applied(files, AppendsOf(results, j)), results[j].value.cat, results[j].value.data)
  {
    var done := AppendsOf(results, j);
    if results[j].Some? {
      AppliedSnoc(files, done, Append(results[j].value.cat, results[j].value.data));
    } else {
      assert done + [] == done;
    }
  }

  /** The appends of category `i` follow those of the categories before it. */
  lemma KeyAppendsStep(newBy: OMap<Category, seq<string>>, classify: string -> Option<Classified>, i: nat)
    requires newBy.Valid() && i < |newBy.keys|
    ensures KeyAppends(newBy, classify, i + 1)
         == KeyAppends(newBy, classify, i) + AppendsOf(Results(newBy.vals[newBy.keys[i]], classify), |newBy.vals[newBy.keys[i]]|)
  {
    assert KeyChunks(newBy, classify)[i] == AppendsOf(Results(newBy.vals[newBy.keys[i]], classify), |newBy.vals[newBy.keys[i]]|);
  }

  /** One round of the store loop: the records of the `i`th new list are stored and the list
      is copied into `newBridges` under its category's name. */
  method StoreCategory(store: Store, newBridges: OMap<string, seq<string>>, t: Category, arr: seq<string>,
                       classify: string -> Option<Classified>, ghost start: Files, ghost newBy: OMap<Category, seq<string>>, ghost i: nat)
    returns (next: OMap<string, seq<string>>)
    requires newBy.Valid() && i < |newBy.keys| && t == newBy.keys[i] && arr == newBy.vals[t]
    requires newBridges == Named(newBy, NameOf, i) && store.files == Applied(start, KeyAppends(newBy, classify, i))
    modifies store
    ensures next == Named(newBy, NameOf, i + 1) && store.files == Applied(start, KeyAppends(newBy, classify, i + 1))
  {
    ghost var before := KeyAppends(newBy, classify, i);
    StoreList(store, arr, classify);
    KeyAppendsStep(newBy, classify, i);
    AppliedConcat(start, before, AppendsOf(Results(arr, classify), |arr|));
    next := newBridges.Put(NameOf(t), arr);
  }

  /** The store loop: for each category of new lines, store their records and copy the list
      into `newBridges`. */
  method StoreNewLines(store: Store, newBy: OMap<Category, seq<string>>, classify: string -> Option<Classified>)
    returns (newBridges: OMap<string, seq<string>>)
    requires newBy.Valid()
    modifies store
    ensures newBridges == Named(newBy, NameOf, |newBy.keys|)
    ensures store.files == Applied(old(store.files), KeyAppends(newBy, classify, |newBy.keys|))
  {
    var entries := newBy.Entries();
    newBridges := Empty();
    for i := 0 to |entries|
      invariant newBridges == Named(newBy, NameOf, i)
      invariant store.files == Applied(old(store.files), KeyAppends(newBy, classify, i))
    {
      var (t, arr) := entries[i];
      newBridges := StoreCategory(store, newBridges, t, arr, classify, old(store.files), newBy, i);
    }
  }

  /** `runOnce`: pages are the results of `fetchHtml` for the URLs in order; lines are
      classified at `classifiedAt` and the new ones classified again at `storedAt`. */
  method RunOnce(pages: seq<Fetched>, store: Store, classifiedAt: string, storedAt: string)
    returns (report: Report, notices: seq<Notice>)
    modifies store
    ensures report == ReportFor(old(store.files), AllLines(pages), classifiedAt)
    ensures notices == NoticesFor(old(store.files), AllLines(pages), classifiedAt)
    ensures store.files == FilesFor(old(store.files), AllLines(pages), classifiedAt, storedAt)
  {
    var docs := store.ReadAll();
    var existing := ToSets(docs);
    KnownFromDocs(store.files, existing);
    var lines := CollectLines(pages);
    report, notices := ProcessLines(store, existing, lines, classifiedAt, storedAt);
  }

  /** The rest of `runOnce` once the lines are collected. */
  method ProcessLines(store: Store, existing: map<Category, set<string>>, lines: seq<string>, classifiedAt: string, storedAt: string)
    returns (report: Report, notices: seq<Notice>)
    requires existing == KnownSetsOf(store.files)
    modifies store
    ensures report == ReportFor(old(store.files), lines, classifiedAt)
    ensures notices == NoticesFor(old(store.files), lines, classifiedAt)
    ensures store.files == FilesFor(old(store.files), lines, classifiedAt, storedAt)
  {
    if |lines| == 0 {
      notices := [Message(FailText)];
      report := Report(Empty(), Empty(), []);
      return;
    }
    var items, malformed := ClassifyLines(lines, ClassifyAt(classifiedAt));
    var known := new KnownSets(existing);
    var newBy, dupBy := known.DedupeWithinType(items);
    DedupeNonEmptyLists(existing, items);
    var newBridges := StoreNewLines(store, newBy, ClassifyAt(storedAt));
    var duplicateBridges := NameAll(dupBy);
    report := Report(newBridges, duplicateBridges, malformed);
    notices := Notify(report);
  }

  /** The calls that report a run which found lines. */
  method Notify(report: Report) returns (notices: seq<Notice>)
    ensures notices == ReportNotices(report)
  {
    notices := [];
    if |report.newBridges.keys| > 0 {
      notices := notices + [Grouped(NewTitle, report.newBridges), Delay(1000)];
    }
    notices := notices + [Grouped(DupTitle, report.duplicateBridges)];
    if |report.malformedBridges| > 0 {
      var msg := MalformedMessage(report.malformedBridges);
      notices := notices + [Message(msg)];
    }
  }
}
