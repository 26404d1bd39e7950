/**
 * The deduplicator of src/core/dedupe.js: the per-category sets of lines
 * already stored, and the split of a batch of classified lines into new and
 * duplicate lines per category, which grows the caller's sets in place.
 */
module Dedupe {
  import opened Text
  import opened Bridges
  import opened OrderedMap

  // ---------------------------------------------------------------------------
  // toSets

  /** One element of a stored `bridges` array: an object whose `bridge` is a string, or
      anything else (`null`, a record without a string `bridge`). */
  datatype StoredEntry = WithBridge(bridge: string) | Other

  /** One stored document: a `bridges` array, or a value that is missing or has no array there. */
  datatype Doc = Doc(bridges: seq<StoredEntry>) | NoBridges

  /** The entries with their `bridge` strings trimmed. */
  function TrimmedEntries(arr: seq<StoredEntry>): (r: seq<StoredEntry>)
    ensures |r| == |arr|
  {
    seq(|arr|, i requires 0 <= i < |arr| => if arr[i].WithBridge? then WithBridge(Trim(arr[i].bridge)) else Other)
  }

  /** The `bridge` strings of the first `m` entries. */
  function KnownUpTo(arr: seq<StoredEntry>, m: nat): set<string>
    requires m <= |arr|
  {
    if m == 0 then {}
    else KnownUpTo(arr, m - 1) + (if arr[m - 1].WithBridge? then {arr[m - 1].bridge} else {})
  }

  /** The trimmed `bridge` strings of a document. */
  function KnownOf(doc: Doc): set<string> {
    if doc.NoBridges? then {} else KnownUpTo(TrimmedEntries(doc.bridges), |doc.bridges|)
  }

  /** `toSets`: one set per key of the documents. */
  method ToSets(docs: OMap<Category, Doc>) returns (sets: map<Category, set<string>>)
    requires docs.Valid()
    ensures sets.Keys == docs.vals.Keys
    ensures forall t :: t in sets ==> sets[t] == KnownOf(docs.vals[t])
  {
    sets := map[];
    for n := 0 to |docs.keys|
      invariant forall t :: t in sets <==> t in docs.keys[..n]
      invariant forall t :: t in sets ==> sets[t] == KnownOf(docs.vals[t])
    {
      var t := docs.keys[n];
      var doc := docs.vals[t];
      var known := {};
      var arr := if doc.Doc? then doc.bridges else [];
      for m := 0 to |arr|
        invariant known == KnownUpTo(TrimmedEntries(arr), m)
      {
        KnownUpToStep(arr, m);
        if arr[m].WithBridge? {
          known := known + {Trim(arr[m].bridge)};
        }
      }
      sets := sets[t := known];
      assert docs.keys[..n + 1] == docs.keys[..n] + [t];
    }
    assert docs.keys[..|docs.keys|] == docs.keys;
  }

  /** The trimmed set grows entry by entry. */
  lemma KnownUpToStep(arr: seq<StoredEntry>, m: nat)
    requires m < |arr|
    ensures KnownUpTo(TrimmedEntries(arr), m + 1)
      == KnownUpTo(TrimmedEntries(arr), m) + (if arr[m].WithBridge? then {Trim(arr[m].bridge)} else {})
  {
  }

  /** The set of the first `m` entries holds exactly their `bridge` strings. */
  lemma {:induction false} KnownUpToMembers(arr: seq<StoredEntry>, m: nat, x: string)
    requires m <= |arr|
    ensures x in KnownUpTo(arr, m) <==> exists i :: 0 <= i < m && arr[i] == WithBridge(x)
  {
    if m > 0 {
      KnownUpToMembers(arr, m - 1, x);
    }
  }

  /** A document's set holds exactly the trimmed `bridge` strings of the entries that have one;
      a document without a `bridges` array gives the empty set. */
  lemma KnownOfMembers(doc: Doc, x: string)
    ensures x in KnownOf(doc) <==>
      doc.Doc? && exists i :: 0 <= i < |doc.bridges| && doc.bridges[i].WithBridge? && Trim(doc.bridges[i].bridge) == x
  {
    if doc.Doc? {
      var arr := TrimmedEntries(doc.bridges);
      KnownUpToMembers(arr, |arr|, x);
      if x in KnownOf(doc) {
        var i :| 0 <= i < |arr| && arr[i] == WithBridge(x);
        assert doc.bridges[i].WithBridge? && Trim(doc.bridges[i].bridge) == x;
      }
      if exists i :: 0 <= i < |doc.bridges| && doc.bridges[i].WithBridge? && Trim(doc.bridges[i].bridge) == x {
        var i :| 0 <= i < |doc.bridges| && doc.bridges[i].WithBridge? && Trim(doc.bridges[i].bridge) == x;
        assert arr[i] == WithBridge(x);
      }
    }
  }

  // ---------------------------------------------------------------------------
  // dedupeWithinType, specified

  /** One classified line as the pipeline hands it over: its category and the line as extracted. */
  datatype Item = Item(cat: Category, raw: string)

  /** One item as the loop sees it: its category and its trimmed line. */
  datatype Entry = Entry(cat: Category, line: string)

  /** The items with their lines trimmed. */
  function Trimmed(items: seq<Item>): (r: seq<Entry>)
    ensures |r| == |items|
  {
    if items == [] then []
    else
      var last := items[|items| - 1];
      Trimmed(items[..|items| - 1]) + [Entry(last.cat, Trim(last.raw))]
  }

  /** Entry `i` is item `i` with its line trimmed. */
  lemma {:induction false} TrimmedAt(items: seq<Item>, i: nat)
    requires i < |items|
    ensures Trimmed(items)[i] == Entry(items[i].cat, Trim(items[i].raw))
  {
    if i < |items| - 1 {
      TrimmedAt(items[..|items| - 1], i);
    }
  }

  /** The state of the loop of `dedupeWithinType`: the entries found new and the entries found
      duplicate so far, in input order, and the caller's sets. */
  datatype Outcome = Outcome(news: seq<Entry>, dups: seq<Entry>, known: map<Category, set<string>>)

  /** `sets[t]`, or the empty set where there is none. */
  function SetOf(sets: map<Category, set<string>>, t: Category): set<string> {
    if t in sets then sets[t] else {}
  }

  /** One turn of the loop of `dedupeWithinType`: a line its category's set already has is a
      duplicate; any other line is new and joins that set, which is created where missing. */
  function Step(o: Outcome, e: Entry): Outcome {
    if e.line in SetOf(o.known, e.cat) then Outcome(o.news, o.dups + [e], o.known)
    else Outcome(o.news + [e], o.dups, o.known[e.cat := SetOf(o.known, e.cat) + {e.line}])
  }

  /** The state after the loop of `dedupeWithinType` has handled the first `n` entries. */
  function Run(known: map<Category, set<string>>, es: seq<Entry>, n: nat): Outcome
    requires n <= |es|
  {
    if n == 0 then Outcome([], [], known)
    else Step(Run(known, es, n - 1), es[n - 1])
  }

  /** `byType[t]`, or the empty list where there is none. */
  function ListOf(byType: OMap<Category, seq<string>>, t: Category): seq<string> {
    if t in byType.vals then byType.vals[t] else []
  }

  /** `if (!byType[t]) byType[t] = []; byType[t].push(line)`. */
  function Push(byType: OMap<Category, seq<string>>, t: Category, line: string): OMap<Category, seq<string>> {
    byType.Put(t, ListOf(byType, t) + [line])
  }

  /** The lines of the first `n` entries pushed one by one under their categories: the
      dictionary the loop builds from the entries it sends to one side. */
  function GroupBy(es: seq<Entry>, n: nat): OMap<Category, seq<string>>
    requires n <= |es|
  {
    if n == 0 then Empty() else Push(GroupBy(es, n - 1), es[n - 1].cat, es[n - 1].line)
  }

  /** What `dedupeWithinType` leaves in the loop state for a batch of items. */
  function Dedupe(known: map<Category, set<string>>, items: seq<Item>): Outcome {
    Run(known, Trimmed(items), |items|)
  }

  /** The first result of `dedupeWithinType`: the new lines by category. */
  function NewByType(known: map<Category, set<string>>, items: seq<Item>): OMap<Category, seq<string>> {
    var o := Dedupe(known, items);
    GroupBy(o.news, |o.news|)
  }

  /** The second result of `dedupeWithinType`: the duplicate lines by category. */
  function DupByType(known: map<Category, set<string>>, items: seq<Item>): OMap<Category, seq<string>> {
    var o := Dedupe(known, items);
    GroupBy(o.dups, |o.dups|)
  }

  /** Entries after the first `n` do not change their grouping. */
  lemma {:induction false} GroupByOnPrefix(es: seq<Entry>, e: Entry, n: nat)
    requires n <= |es|
    ensures GroupBy(es + [e], n) == GroupBy(es, n)
  {
    if n > 0 {
      GroupByOnPrefix(es, e, n - 1);
      assert (es + [e])[n - 1] == es[n - 1];
    }
  }

  /** Grouping one more entry pushes its line. */
  lemma GroupBySnoc(es: seq<Entry>, e: Entry)
    ensures GroupBy(es + [e], |es| + 1) == Push(GroupBy(es, |es|), e.cat, e.line)
  {
    GroupByOnPrefix(es, e, |es|);
    assert (es + [e])[|es|] == e;
  }

  /** A turn for a line its category's set has sends the entry to the duplicates. */
  lemma StepDup(o: Outcome, e: Entry)
    requires e.line in SetOf(o.known, e.cat)
    ensures Step(o, e) == Outcome(o.news, o.dups + [e], o.known)
  {
  }

  /** A turn for any other line sends the entry to the new ones and its line into the set. */
  lemma StepNew(o: Outcome, e: Entry)
    requires e.line !in SetOf(o.known, e.cat)
    ensures Step(o, e) == Outcome(o.news + [e], o.dups, o.known[e.cat := SetOf(o.known, e.cat) + {e.line}])
  {
  }

  /** The body of the loop of `dedupeWithinType` for one item of category `t` and trimmed line
      `line`: a line its category's set holds is pushed onto the duplicates; any other line is
      pushed onto the new lines and added to the set, which is created where missing. */
  method Turn(newBy: OMap<Category, seq<string>>, dupBy: OMap<Category, seq<string>>, known: map<Category, set<string>>,
              t: Category, line: string)
    returns (newBy': OMap<Category, seq<string>>, dupBy': OMap<Category, seq<string>>, known': map<Category, set<string>>)
    ensures line in SetOf(known, t) ==> newBy' == newBy && dupBy' == Push(dupBy, t, line) && known' == known
    ensures line !in SetOf(known, t) ==>
      newBy' == Push(newBy, t, line) && dupBy' == dupBy && known' == known[t := SetOf(known, t) + {line}]
  {
    newBy', dupBy', known' := newBy, dupBy, known;
    if t !in known' {
      known' := known'[t := {}];
    }
    if line in known'[t] {
      var current := if t in dupBy'.vals then dupBy'.vals[t] else [];
      dupBy' := dupBy'.Put(t, current + [line]);
      assert known' == known;
    } else {
      var current := if t in newBy'.vals then newBy'.vals[t] else [];
      newBy' := newBy'.Put(t, current + [line]);
      known' := known'[t := known'[t] + {line}];
      assert known'[t] == SetOf(known, t) + {line};
      assert known' == known[t := SetOf(known, t) + {line}];
    }
  }

  /** A turn of the loop on the dictionaries and sets that hold the loop state `o` gives the ones
      that hold the state after the turn. */
  lemma TurnKeepsGroups(o: Outcome, e: Entry)
    ensures var o' := Step(o, e);
      GroupBy(o'.news, |o'.news|) == (if e.line in SetOf(o.known, e.cat) then GroupBy(o.news, |o.news|) else Push(GroupBy(o.news, |o.news|), e.cat, e.line))
      && GroupBy(o'.dups, |o'.dups|) == (if e.line in SetOf(o.known, e.cat) then Push(GroupBy(o.dups, |o.dups|), e.cat, e.line) else GroupBy(o.dups, |o.dups|))
  {
    if e.line in SetOf(o.known, e.cat) {
      StepDup(o, e);
      GroupBySnoc(o.dups, e);
    } else {
      StepNew(o, e);
      GroupBySnoc(o.news, e);
    }
  }

  /** Trimming one more item appends its entry. */
  lemma TrimmedSnoc(items: seq<Item>, i: nat)
    requires i < |items|
    ensures Trimmed(items[..i + 1]) == Trimmed(items[..i]) + [Entry(items[i].cat, Trim(items[i].raw))]
  {
    assert items[..i + 1][..i] == items[..i];
  }

  /** Entries after the first `n` do not change the state after `n` turns. */
  lemma {:induction false} RunOnPrefix(known: map<Category, set<string>>, es: seq<Entry>, e: Entry, n: nat)
    requires n <= |es|
    ensures Run(known, es + [e], n) == Run(known, es, n)
  {
    if n > 0 {
      RunOnPrefix(known, es, e, n - 1);
      assert (es + [e])[n - 1] == es[n - 1];
    }
  }

  /** One more entry is one more turn. */
  lemma RunExtend(known: map<Category, set<string>>, es: seq<Entry>, e: Entry)
    ensures Run(known, es + [e], |es| + 1) == Step(Run(known, es, |es|), e)
  {
    RunOnPrefix(known, es, e, |es|);
    assert (es + [e])[|es|] == e;
  }

  /** The caller's sets, as `dedupeWithinType` reads and grows them in place. */
  class KnownSets {
    var sets: map<Category, set<string>>

    constructor(sets: map<Category, set<string>>)
      ensures this.sets == sets
    {
      this.sets := sets;
    }

    /** `dedupeWithinType(existingSets, items)`. */
    method DedupeWithinType(items: seq<Item>) returns (newBy: OMap<Category, seq<string>>, dupBy: OMap<Category, seq<string>>)
      modifies this
      ensures newBy == NewByType(old(sets), items) && dupBy == DupByType(old(sets), items)
      ensures sets == Dedupe(old(sets), items).known
    {
      ghost var es: seq<Entry> := [];
      ghost var start := sets;
      var known := sets;
      newBy := Empty();
      dupBy := Empty();
      for i := 0 to |items|
        invariant es == Trimmed(items[..i])
        invariant var o := Run(start, es, |es|);
          newBy == GroupBy(o.news, |o.news|) && dupBy == GroupBy(o.dups, |o.dups|) && known == o.known
      {
        var line := Trim(items[i].raw);
        TrimmedSnoc(items, i);
        RunExtend(start, es, Entry(items[i].cat, line));
        TurnKeepsGroups(Run(start, es, |es|), Entry(items[i].cat, line));
        newBy, dupBy, known := Turn(newBy, dupBy, known, items[i].cat, line);
        es := es + [Entry(items[i].cat, line)];
      }
      assert items[..|items|] == items;
      sets := known;
    }
  }

  // ---------------------------------------------------------------------------
  // The reference: which entries are new, stated per entry

  /** Entry `i` is new: its line is neither among the lines known for its category
      nor the line of an earlier entry of the same category. */
  predicate IsNewAt(known: map<Category, set<string>>, es: seq<Entry>, i: nat)
    requires i < |es|
  {
    es[i].line !in SetOf(known, es[i].cat) && forall j :: 0 <= j < i ==> es[j] != es[i]
  }

  /** The lines of the new entries of category `t` among the first `n`, in input order. */
  function NewLines(known: map<Category, set<string>>, es: seq<Entry>, t: Category, n: nat): seq<string>
    requires n <= |es|
  {
    if n == 0 then []
    else
      var last := if es[n - 1].cat == t && IsNewAt(known, es, n - 1) then [es[n - 1].line] else [];
      NewLines(known, es, t, n - 1) + last
  }

  /** The lines of the other entries of category `t` among the first `n`, in input order. */
  function DupLines(known: map<Category, set<string>>, es: seq<Entry>, t: Category, n: nat): seq<string>
    requires n <= |es|
  {
    if n == 0 then []
    else
      var last := if es[n - 1].cat == t && !IsNewAt(known, es, n - 1) then [es[n - 1].line] else [];
      DupLines(known, es, t, n - 1) + last
  }

  /** The lines of the entries of category `t` among the first `n`. */
  function Seen(es: seq<Entry>, t: Category, n: nat): set<string>
    requires n <= |es|
  {
    if n == 0 then {}
    else Seen(es, t, n - 1) + (if es[n - 1].cat == t then {es[n - 1].line} else {})
  }

  /** The categories of the first `n` entries. */
  function CatsOf(es: seq<Entry>, n: nat): set<Category>
    requires n <= |es|
  {
    if n == 0 then {} else CatsOf(es, n - 1) + {es[n - 1].cat}
  }

  /** A line is seen in category `t` exactly when an entry of that category has it. */
  lemma {:induction false} SeenMembers(es: seq<Entry>, t: Category, n: nat, x: string)
    requires n <= |es|
    ensures x in Seen(es, t, n) <==> exists j :: 0 <= j < n && es[j] == Entry(t, x)
  {
    if n > 0 {
      SeenMembers(es, t, n - 1, x);
    }
  }

  // ---------------------------------------------------------------------------
  // The loop meets the reference

  /** One turn adds a key for the entry's category and no other. */
  lemma StepKeys(o: Outcome, e: Entry)
    ensures Step(o, e).known.Keys == o.known.Keys + {e.cat}
  {
  }

  /** After `n` entries the caller's sets have gained a key for every category seen. */
  lemma {:induction false} KnownKeys(known: map<Category, set<string>>, es: seq<Entry>, n: nat)
    requires n <= |es|
    ensures Run(known, es, n).known.Keys == known.Keys + CatsOf(es, n)
  {
    if n > 0 {
      KnownKeys(known, es, n - 1);
      StepKeys(Run(known, es, n - 1), es[n - 1]);
    }
  }

  /** One turn adds the entry's line to its category's set and changes no other set. */
  lemma StepKnown(o: Outcome, e: Entry, t: Category)
    ensures SetOf(Step(o, e).known, t) == SetOf(o.known, t) + (if e.cat == t then {e.line} else {})
  {
  }

  /** A turn for a line its category's set already has leaves the new entries as they were. */
  lemma StepKnownLine(o: Outcome, e: Entry)
    requires e.line in SetOf(o.known, e.cat)
    ensures Step(o, e).news == o.news
  {
  }

  /** After `n` entries the set of category `t` holds what it held plus every line seen in it. */
  lemma {:induction false} KnownIsSeen(known: map<Category, set<string>>, es: seq<Entry>, n: nat, t: Category)
    requires n <= |es|
    ensures SetOf(Run(known, es, n).known, t) == SetOf(known, t) + Seen(es, t, n)
  {
    if n > 0 {
      KnownIsSeen(known, es, n - 1, t);
      StepKnown(Run(known, es, n - 1), es[n - 1], t);
    }
  }

  /** Entry `n` is new exactly when its line is not in its category's set at that point. */
  lemma NewIffUnseen(known: map<Category, set<string>>, es: seq<Entry>, n: nat)
    requires n < |es|
    ensures IsNewAt(known, es, n) <==> es[n].line !in SetOf(Run(known, es, n).known, es[n].cat)
  {
    KnownIsSeen(known, es, n, es[n].cat);
    SeenMembers(es, es[n].cat, n, es[n].line);
  }

  /** Entries after the first `n` do not change the lines of category `t` among them. */
  lemma {:induction false} LinesOfOnPrefix(es: seq<Entry>, e: Entry, t: Category, n: nat)
    requires n <= |es|
    ensures LinesOf(es + [e], t, n) == LinesOf(es, t, n)
  {
    if n > 0 {
      LinesOfOnPrefix(es, e, t, n - 1);
      assert (es + [e])[n - 1] == es[n - 1];
    }
  }

  /** One more entry adds its line to its own category's lines. */
  lemma LinesOfSnoc(es: seq<Entry>, e: Entry, t: Category)
    ensures LinesOf(es + [e], t, |es| + 1) == LinesOf(es, t, |es|) + (if e.cat == t then [e.line] else [])
  {
    LinesOfOnPrefix(es, e, t, |es|);
    assert (es + [e])[|es|] == e;
  }

  /** One turn appends the entry's line to exactly one side's lines of its category. */
  lemma StepLists(o: Outcome, e: Entry, t: Category)
    ensures var isNew, o' := e.line !in SetOf(o.known, e.cat), Step(o, e);
      LinesOf(o'.news, t, |o'.news|) == LinesOf(o.news, t, |o.news|) + (if e.cat == t && isNew then [e.line] else [])
      && LinesOf(o'.dups, t, |o'.dups|) == LinesOf(o.dups, t, |o.dups|) + (if e.cat == t && !isNew then [e.line] else [])
  {
    LinesOfSnoc(o.news, e, t);
    LinesOfSnoc(o.dups, e, t);
  }

  /** Turn `n` appends the line of entry `n - 1` to the new lines of its category when that entry
      is new, and to the duplicate lines otherwise. */
  lemma RunLists(known: map<Category, set<string>>, es: seq<Entry>, n: nat, t: Category)
    requires 0 < n <= |es|
    ensures var o, o', e := Run(known, es, n - 1), Run(known, es, n), es[n - 1];
      var isNew := IsNewAt(known, es, n - 1);
      LinesOf(o'.news, t, |o'.news|) == LinesOf(o.news, t, |o.news|) + (if e.cat == t && isNew then [e.line] else [])
      && LinesOf(o'.dups, t, |o'.dups|) == LinesOf(o.dups, t, |o.dups|) + (if e.cat == t && !isNew then [e.line] else [])
  {
    NewIffUnseen(known, es, n - 1);
    StepLists(Run(known, es, n - 1), es[n - 1], t);
  }

  /** The loop's new lines of category `t` are the reference's. */
  lemma {:induction false} RunNewIsReference(known: map<Category, set<string>>, es: seq<Entry>, n: nat, t: Category)
    requires n <= |es|
    ensures var o := Run(known, es, n); LinesOf(o.news, t, |o.news|) == NewLines(known, es, t, n)
  {
    if n > 0 {
      RunNewIsReference(known, es, n - 1, t);
      RunLists(known, es, n, t);
    }
  }

  /** The loop's duplicate lines of category `t` are the reference's. */
  lemma {:induction false} RunDupIsReference(known: map<Category, set<string>>, es: seq<Entry>, n: nat, t: Category)
    requires n <= |es|
    ensures var o := Run(known, es, n); LinesOf(o.dups, t, |o.dups|) == DupLines(known, es, t, n)
  {
    if n > 0 {
      RunDupIsReference(known, es, n - 1, t);
      RunLists(known, es, n, t);
    }
  }

  /** The list under category `t` of a grouping holds the lines of that category in order. */
  lemma {:induction false} GroupByLists(es: seq<Entry>, t: Category, n: nat)
    requires n <= |es|
    ensures ListOf(GroupBy(es, n), t) == LinesOf(es, t, n)
  {
    if n > 0 {
      GroupByLists(es, t, n - 1);
    }
  }

  /** Pushing a line keeps every key listed once with a non-empty list. */
  lemma PushKeepsNonEmptyLists(byType: OMap<Category, seq<string>>, t: Category, line: string)
    requires NonEmptyLists(byType)
    ensures NonEmptyLists(Push(byType, t, line))
  {
    byType.PutKeepsValid(t, ListOf(byType, t) + [line]);
  }

  /** Every key present is listed once and maps to a non-empty list. */
  ghost predicate NonEmptyLists(byType: OMap<Category, seq<string>>) {
    byType.Valid() && forall t :: t in byType.vals ==> |byType.vals[t]| > 0
  }

  /** A grouping is a well-formed dictionary with a non-empty list under each of its keys, and
      its keys are exactly the categories of the entries grouped. */
  lemma {:induction false} GroupByKeys(es: seq<Entry>, n: nat)
    requires n <= |es|
    ensures NonEmptyLists(GroupBy(es, n))
    ensures forall t :: t in GroupBy(es, n).vals <==> t in CatsOf(es, n)
  {
    if n > 0 {
      GroupByKeys(es, n - 1);
      PushKeepsNonEmptyLists(GroupBy(es, n - 1), es[n - 1].cat, es[n - 1].line);
    }
  }

  // ---------------------------------------------------------------------------
  // Properties of dedupeWithinType

  /** The lines of the entries of category `t` among the first `n`, in input order. */
  function LinesOf(es: seq<Entry>, t: Category, n: nat): seq<string>
    requires n <= |es|
  {
    if n == 0 then []
    else LinesOf(es, t, n - 1) + (if es[n - 1].cat == t then [es[n - 1].line] else [])
  }

  /** Each item goes to exactly one list of its category, as its trimmed line, and both lists
      keep input order: the new list holds the items that are new, the duplicate list the rest. */
  lemma DedupeIsReference(known: map<Category, set<string>>, items: seq<Item>, t: Category)
    ensures ListOf(NewByType(known, items), t) == NewLines(known, Trimmed(items), t, |items|)
    ensures ListOf(DupByType(known, items), t) == DupLines(known, Trimmed(items), t, |items|)
  {
    var o := Dedupe(known, items);
    RunNewIsReference(known, Trimmed(items), |items|, t);
    RunDupIsReference(known, Trimmed(items), |items|, t);
    GroupByLists(o.news, t, |o.news|);
    GroupByLists(o.dups, t, |o.dups|);
  }

  /** Both results are well-formed dictionaries, and a key appears in one only with a line under it. */
  lemma DedupeNonEmptyLists(known: map<Category, set<string>>, items: seq<Item>)
    ensures NonEmptyLists(NewByType(known, items)) && NonEmptyLists(DupByType(known, items))
  {
    var o := Dedupe(known, items);
    GroupByKeys(o.news, |o.news|);
    GroupByKeys(o.dups, |o.dups|);
  }

  /** Each entry of category `t` lands in exactly one of the two lists: their lengths add up
      to the number of such entries ... */
  lemma {:induction false} NewAndDupLengths(known: map<Category, set<string>>, es: seq<Entry>, t: Category, n: nat)
    requires n <= |es|
    ensures |NewLines(known, es, t, n)| + |DupLines(known, es, t, n)| == |LinesOf(es, t, n)|
  {
    if n > 0 {
      NewAndDupLengths(known, es, t, n - 1);
    }
  }

  /** ... and a line is in one of them exactly when an entry of category `t` has it. */
  lemma {:induction false} NewAndDupCoverLines(known: map<Category, set<string>>, es: seq<Entry>, t: Category, n: nat, x: string)
    requires n <= |es|
    ensures x in NewLines(known, es, t, n) || x in DupLines(known, es, t, n) <==> x in LinesOf(es, t, n)
  {
    if n > 0 {
      NewAndDupCoverLines(known, es, t, n - 1, x);
    }
  }

  /** Every new line of category `t` is unknown before the call and comes from an entry of that category. */
  lemma {:induction false} NewLinesAreUnknown(known: map<Category, set<string>>, es: seq<Entry>, t: Category, n: nat)
    requires n <= |es|
    ensures forall x :: x in NewLines(known, es, t, n) ==> x !in SetOf(known, t) && x in Seen(es, t, n)
  {
    if n > 0 {
      NewLinesAreUnknown(known, es, t, n - 1);
    }
  }

  /** The new lines of a category have no repeats: only the first occurrence of a line is new. */
  lemma {:induction false} NewLinesNoRepeats(known: map<Category, set<string>>, es: seq<Entry>, t: Category, n: nat)
    requires n <= |es|
    ensures forall i, j :: 0 <= i < j < |NewLines(known, es, t, n)| ==>
      NewLines(known, es, t, n)[i] != NewLines(known, es, t, n)[j]
  {
    if n > 0 {
      NewLinesNoRepeats(known, es, t, n - 1);
      NewLinesAreUnknown(known, es, t, n - 1);
      var prev := NewLines(known, es, t, n - 1);
      if es[n - 1].cat == t && IsNewAt(known, es, n - 1) {
        var line := es[n - 1].line;
        SeenMembers(es, t, n - 1, line);
        assert line !in prev;
      }
    }
  }

  /** A line seen in category `t` is either known beforehand or one of the new lines. */
  lemma {:induction false} SeenIsKnownOrNew(known: map<Category, set<string>>, es: seq<Entry>, t: Category, n: nat)
    requires n <= |es|
    ensures forall x :: x in Seen(es, t, n) ==> x in SetOf(known, t) || x in NewLines(known, es, t, n)
  {
    if n > 0 {
      SeenIsKnownOrNew(known, es, t, n - 1);
      var line := es[n - 1].line;
      if es[n - 1].cat == t && !IsNewAt(known, es, n - 1) && line !in SetOf(known, t) {
        SeenMembers(es, t, n - 1, line);
      }
    }
  }

  /** The sets only grow: afterwards each category's set is its old set plus its new lines, and
      a key is added for every category the batch holds, with nothing else changed. */
  lemma KnownGrowsByNewLines(known: map<Category, set<string>>, items: seq<Item>, t: Category)
    ensures Dedupe(known, items).known.Keys == known.Keys + CatsOf(Trimmed(items), |items|)
    ensures SetOf(Dedupe(known, items).known, t) == SetOf(known, t) + set x | x in ListOf(NewByType(known, items), t)
  {
    var es := Trimmed(items);
    KnownKeys(known, es, |es|);
    KnownIsSeen(known, es, |es|, t);
    DedupeIsReference(known, items, t);
    SeenIsKnownOrNew(known, es, t, |es|);
    NewLinesAreUnknown(known, es, t, |es|);
  }

  /** When every line of the batch is already known for its category, no entry is new. */
  lemma {:induction false} AllKnownNothingNew(known: map<Category, set<string>>, es: seq<Entry>, n: nat)
    requires n <= |es|
    requires forall i :: 0 <= i < |es| ==> es[i].line in SetOf(known, es[i].cat)
    ensures Run(known, es, n).news == []
  {
    if n > 0 {
      AllKnownNothingNew(known, es, n - 1);
      var o, e := Run(known, es, n - 1), es[n - 1];
      KnownIsSeen(known, es, n - 1, e.cat);
      StepKnownLine(o, e);
    }
  }

  /** When every trimmed line of the batch is already known for its category, the new lines
      come back as an empty dictionary. */
  lemma AllKnownNoNewKeys(known: map<Category, set<string>>, items: seq<Item>)
    requires forall i :: 0 <= i < |items| ==> Trim(items[i].raw) in SetOf(known, items[i].cat)
    ensures NewByType(known, items).keys == []
  {
    var es := Trimmed(items);
    forall i | 0 <= i < |es|
      ensures es[i].line in SetOf(known, es[i].cat)
    {
      TrimmedAt(items, i);
    }
    AllKnownNothingNew(known, es, |es|);
  }

  /** When every line of the batch is already known for its category, every entry is a duplicate. */
  lemma {:induction false} AllKnownAllDuplicates(known: map<Category, set<string>>, es: seq<Entry>, t: Category, n: nat)
    requires n <= |es|
    requires forall i :: 0 <= i < |es| ==> es[i].line in SetOf(known, es[i].cat)
    ensures DupLines(known, es, t, n) == LinesOf(es, t, n)
  {
    if n > 0 {
      AllKnownAllDuplicates(known, es, t, n - 1);
    }
  }

  // ---------------------------------------------------------------------------
  // The repository's own example

  /** Known `a` for obfs4 over IPv4; entries `a`, `b` of that category and `x` twice for
      webtunnel over IPv6, with `a` and `b` distinct: `b` and the first `x` are new, `a` and the
      second `x` duplicates, and the sets end up holding `a`, `b` and `x`. */
  lemma RunScenario(known: map<Category, set<string>>, es: seq<Entry>, a: string, b: string, x: string)
    requires a != b
    requires known == map[Category(Obfs4, false) := {a}]
    requires |es| == 4 && es[0] == Entry(Category(Obfs4, false), a) && es[1] == Entry(Category(Obfs4, false), b)
    requires es[2] == Entry(Category(Webtunnel, true), x) && es[3] == Entry(Category(Webtunnel, true), x)
    ensures var o4, w6, r := Category(Obfs4, false), Category(Webtunnel, true), Run(known, es, |es|);
      r.news == [es[1], es[2]] && r.dups == [es[0], es[3]]
      && SetOf(r.known, o4) == {a, b} && SetOf(r.known, w6) == {x}
  {
    var o4, w6 := Category(Obfs4, false), Category(Webtunnel, true);
    var r0, r1, r2, r3 := Run(known, es, 0), Run(known, es, 1), Run(known, es, 2), Run(known, es, 3);
    StepKnown(r0, es[0], o4); StepKnown(r0, es[0], w6);
    StepKnown(r1, es[1], o4); StepKnown(r1, es[1], w6);
    StepKnown(r2, es[2], o4); StepKnown(r2, es[2], w6);
    StepKnown(r3, es[3], o4); StepKnown(r3, es[3], w6);
  }

  /** Items whose lines are already trimmed are handled as they are. */
  lemma TrimmedOfTrimmedItems(items: seq<Item>)
    requires forall i :: 0 <= i < |items| ==> Trim(items[i].raw) == items[i].raw
    ensures forall i :: 0 <= i < |items| ==> Trimmed(items)[i] == Entry(items[i].cat, items[i].raw)
  {
    forall i | 0 <= i < |items|
      ensures Trimmed(items)[i] == Entry(items[i].cat, items[i].raw)
    {
      TrimmedAt(items, i);
    }
  }

  /** The test's lines are already trimmed. */
  lemma TestLinesAreTrimmed()
    ensures Trim("A") == "A" && Trim("B") == "B" && Trim("X") == "X"
  {
    assert !IsSpace('A') && !IsSpace('B') && !IsSpace('X');
    assert |"A"| == 1 && "A"[0] == 'A';
    assert |"B"| == 1 && "B"[0] == 'B';
    assert |"X"| == 1 && "X"[0] == 'X';
    TrimOfTrimmed("A");
    TrimOfTrimmed("B");
    TrimOfTrimmed("X");
  }

  /** Grouping a line of obfs4 over IPv4 and then one of webtunnel over IPv6 gives each its own key, in that order. */
  lemma GroupedPair(a: string, x: string)
    ensures var o4, w6 := Category(Obfs4, false), Category(Webtunnel, true);
      GroupBy([Entry(o4, a), Entry(w6, x)], 2) == OMap([o4, w6], map[o4 := [a], w6 := [x]])
  {
    var o4, w6 := Category(Obfs4, false), Category(Webtunnel, true);
    var es := [Entry(o4, a), Entry(w6, x)];
    assert GroupBy(es, 0) == Empty();
    var g1 := GroupBy(es, 1);
    assert es[0] == Entry(o4, a) && es[1] == Entry(w6, x);
    assert g1 == Push(Empty(), o4, a);
    assert ListOf(Empty(), o4) == [];
    assert g1 == OMap([] + [o4], map[o4 := [] + [a]]);
    assert [] + [o4] == [o4] && [] + [a] == [a];
    assert ListOf(g1, w6) == [];
    assert GroupBy(es, 2) == Push(g1, w6, x);
    assert GroupBy(es, 2) == OMap([o4] + [w6], map[o4 := [a]][w6 := [] + [x]]);
    assert [o4] + [w6] == [o4, w6] && [] + [x] == [x];
  }

  /** The items of the repository's dedupe test: `A`, `B` for `obfs4_ipv4`, then `X` twice for `webtunnel_ipv6`. */
  const TestItems: seq<Item> := [Item(Category(Obfs4, false), "A"), Item(Category(Obfs4, false), "B"),
                                 Item(Category(Webtunnel, true), "X"), Item(Category(Webtunnel, true), "X")]

  /** The repository's dedupe test: with `A` known for `obfs4_ipv4`, the new lines are `B` for
      `obfs4_ipv4` and `X` for `webtunnel_ipv6`, the duplicates `A` and the second `X`. */
  lemma DedupeTestExample()
    ensures var o4, w6, known := Category(Obfs4, false), Category(Webtunnel, true), map[Category(Obfs4, false) := {"A"}];
      NewByType(known, TestItems) == OMap([o4, w6], map[o4 := ["B"], w6 := ["X"]])
      && DupByType(known, TestItems) == OMap([o4, w6], map[o4 := ["A"], w6 := ["X"]])
  {
    var o4, w6, known := Category(Obfs4, false), Category(Webtunnel, true), map[Category(Obfs4, false) := {"A"}];
    var es := [Entry(o4, "A"), Entry(o4, "B"), Entry(w6, "X"), Entry(w6, "X")];
    TestLinesAreTrimmed();
    TrimmedOfTrimmedItems(TestItems);
    assert Trimmed(TestItems) == es;
    RunScenario(known, es, "A", "B", "X");
    var r := Run(known, es, |es|);
    assert r.news == [Entry(o4, "B"), Entry(w6, "X")];
    assert r.dups == [Entry(o4, "A"), Entry(w6, "X")];
    GroupedPair("B", "X");
    GroupedPair("A", "X");
  }
}
