/**
 * The state the server process keeps between requests, src/server.js: whether a run is in
 * flight and what the last one gave (`triggerRun`), the 500-line log buffer (`logLine`), the
 * `.env` merge `updateEnv` writes, and the schedule the internal cron is started with.
 */
module Server {
  import opened Wrappers
  import opened Text
  import opened OrderedMap
  import opened ServerRouter
  import Core

  // ---------------------------------------------------------------------------
  // Runs

  /** How the awaited `runOnce` ended: with its report, or by throwing. */
  datatype Outcome = Succeeded(report: Core.Report) | Failed(error: string)

  /** What `triggerRun` answers. */
  datatype RunResult = Busy | Ok(lastRun: string, report: Core.Report) | Error(lastRun: string, error: string)

  /** The module-level `running`, `lastRun` and `lastReport`. */
  datatype RunStatus = RunStatus(running: bool, lastRun: Option<string>, lastReport: Option<Core.Report>)

  /** The start of `triggerRun`: refuse while a run is in flight, else mark one. The boolean is
      whether the call was refused. */
  function StartRun(st: RunStatus): (RunStatus, bool) {
    if st.running then (st, true) else (st.(running := true), false)
  }

  /** The end of `triggerRun` at time `now` (`toISOString()`): whatever the outcome, `lastRun`
      is set and `running` cleared; only a report replaces `lastReport`. */
  function FinishRun(st: RunStatus, outcome: Outcome, now: string): (RunStatus, RunResult) {
    match outcome
    case Succeeded(report) => (RunStatus(false, Some(now), Some(report)), Ok(now, report))
    case Failed(error) => (RunStatus(false, Some(now), st.lastReport), Error(now, error))
  }

  /** The run state of the process. `runOnce` is awaited between `Start` and `Finish`, so
      another `triggerRun` (a scheduled one, or one from the panel) can come in between. */
  class Runner {
    var running: bool
    var lastRun: Option<string>
    var lastReport: Option<Core.Report>

    constructor()
      ensures !running && lastRun.None? && lastReport.None?
    {
      running := false;
      lastRun := None;
      lastReport := None;
    }

    function Status(): RunStatus
      reads this
    {
      RunStatus(running, lastRun, lastReport)
    }

    /** The synchronous start of `triggerRun`. */
    method Start() returns (busy: bool)
      modifies this
      ensures (Status(), busy) == StartRun(old(Status()))
    {
      if running {
        return true;
      }
      running := true;
      return false;
    }

    /** The rest of `triggerRun`, once `runOnce` has settled. */
    method Finish(outcome: Outcome, now: string) returns (result: RunResult)
      modifies this
      ensures (Status(), result) == FinishRun(old(Status()), outcome, now)
    {
      running := false;
      match outcome
      case Succeeded(report) =>
        lastRun := Some(now);
        lastReport := Some(report);
        result := Ok(now, report);
      case Failed(error) =>
        lastRun := Some(now);
        result := Error(now, error);
    }
  }

  /** A `triggerRun` that comes in while another is in flight answers `busy` and changes
      nothing, `lastRun` included. */
  lemma OverlappingRunRefused(st: RunStatus)
    requires !st.running
    ensures var started := StartRun(st).0;
      !StartRun(st).1 && started.running && StartRun(started) == (started, true)
      && started.lastRun == st.lastRun && started.lastReport == st.lastReport
  {
  }

  /** After a run, on success or error, nothing is in flight and `lastRun` is the finishing
      time; `lastReport` changes exactly when the run succeeded, to its report. */
  lemma RunSettles(st: RunStatus, outcome: Outcome, now: string)
    ensures var after := FinishRun(StartRun(st).0, outcome, now).0;
      !after.running && after.lastRun == Some(now)
      && (outcome.Succeeded? ==> after.lastReport == Some(outcome.report))
      && (outcome.Failed? ==> after.lastReport == st.lastReport)
  {
  }

  // ---------------------------------------------------------------------------
  // The log buffer

  /** `MAX_LOGS`. */
  const MaxLogs: nat := 500

  /** The text `logLine` stores: the ISO time in brackets, then the arguments joined by
      spaces. */
  function LogText(stamp: string, args: seq<string>): string {
    "[" + stamp + "] " + Join(args, " ")
  }

  /** The buffer after one push and, when it has grown past the bound, one shift. */
  function Pushed(logs: seq<string>, line: string): seq<string> {
    var grown := logs + [line];
    if |grown| > MaxLogs then grown[1..] else grown
  }

  /** The buffer after `lines` were logged, one by one, from an empty buffer. */
  function LogsAfter(lines: seq<string>): seq<string>
    decreases |lines|
  {
    if |lines| == 0 then [] else Pushed(LogsAfter(lines[..|lines| - 1]), lines[|lines| - 1])
  }

  /** The last `MaxLogs` lines, or all of them when there are fewer. */
  function Recent(lines: seq<string>): (r: seq<string>)
    ensures |r| <= MaxLogs
  {
    if |lines| <= MaxLogs then lines else lines[|lines| - MaxLogs..]
  }

  /** Whatever has been logged, the buffer holds the most recent lines, up to 500, in the
      order they were logged, the newest last. */
  lemma {:induction false} LogsAreRecent(lines: seq<string>)
    ensures LogsAfter(lines) == Recent(lines)
    decreases |lines|
  {
    if |lines| > 0 {
      var init, last := lines[..|lines| - 1], lines[|lines| - 1];
      LogsAreRecent(init);
      assert lines == init + [last];
      if |init| >= MaxLogs {
        assert Recent(init) + [last] == lines[|init| - MaxLogs..];
      }
    }
  }

  /** The module-level `logs`. */
  class LogBuffer {
    var logs: seq<string>

    ghost predicate Valid()
      reads this
    {
      |logs| <= MaxLogs
    }

    constructor()
      ensures Valid() && logs == []
    {
      logs := [];
    }

    /** `logLine(...args)` at time `stamp`; the console copy is not modelled. */
    method LogLine(stamp: string, args: seq<string>)
      requires Valid()
      modifies this
      ensures Valid() && logs == Pushed(old(logs), LogText(stamp, args))
      ensures |logs| > 0 && logs[|logs| - 1] == LogText(stamp, args)
    {
      var line := LogText(stamp, args);
      logs := logs + [line];
      if |logs| > MaxLogs {
        logs := logs[1..];
      }
    }
  }

  // ---------------------------------------------------------------------------
  // The `.env` file

  /** The characters of `[A-Z0-9_]`. */
  predicate IsKeyChar(c: char) {
    ('A' <= c <= 'Z') || ('0' <= c <= '9') || c == '_'
  }

  /** The characters a regular expression's `.` does not match. */
  predicate IsLineTerminator(c: char) {
    c == '\n' || c == '\r' || c == '\U{2028}' || c == '\U{2029}'
  }

  /** `[A-Z0-9_]+`. */
  predicate IsEnvKey(k: string) {
    |k| > 0 && forall i :: 0 <= i < |k| ==> IsKeyChar(k[i])
  }

  /** `.*` up to the end of the text. */
  predicate OneLine(v: string) {
    forall i :: 0 <= i < |v| ==> !IsLineTerminator(v[i])
  }

  /** A piece of `split(/\r?\n/)` other than the last loses the `\r` before its `\n`. */
  function DropReturn(s: string): string {
    if |s| > 0 && s[|s| - 1] == '\r' then s[..|s| - 1] else s
  }

  /** `text.split(/\r?\n/)`. */
  function SplitLines(text: string): (lines: seq<string>)
    ensures |lines| >= 1
  {
    var parts := Split(text, '\n');
    seq(|parts|, i requires 0 <= i < |parts| => if i + 1 < |parts| then DropReturn(parts[i]) else parts[i])
  }

  /** `l.match(/^([A-Z0-9_]+)=(.*)$/)`: the key before the first `=` and the rest. */
  function EnvEntry(line: string): Option<(string, string)> {
    var idx := IndexOf(line, '=');
    if idx < |line| && IsEnvKey(line[..idx]) && OneLine(line[idx + 1..]) then Some((line[..idx], line[idx + 1..]))
    else None
  }

  /** A line matches, with key `k` and value `v`, exactly when it is `k=v` for a key of
      `[A-Z0-9_]` characters and a value on one line. */
  lemma EnvEntryMatches(line: string, k: string, v: string)
    ensures EnvEntry(line) == Some((k, v)) <==> line == k + "=" + v && IsEnvKey(k) && OneLine(v)
  {
    if line == k + "=" + v && IsEnvKey(k) && OneLine(v) {
      assert '=' !in k by {
        forall i | 0 <= i < |k| ensures k[i] != '=' {
          assert IsKeyChar(k[i]);
        }
      }
      IndexAfter(k, v, '=');
      assert line[..|k|] == k && line[|k| + 1..] == v;
    }
    if EnvEntry(line) == Some((k, v)) {
      var idx := IndexOf(line, '=');
      assert line == line[..idx] + "=" + line[idx + 1..];
    }
  }

  /** The match of each line. */
  function Entries(lines: seq<string>): (entries: seq<Option<(string, string)>>)
    ensures |entries| == |lines|
  {
    seq(|lines|, i requires 0 <= i < |lines| => EnvEntry(lines[i]))
  }

  /** The dictionary `current` after the first `n` matches. */
  function CurrentUpTo(entries: seq<Option<(string, string)>>, n: nat): OMap<string, string>
    requires n <= |entries|
  {
    if n == 0 then Empty()
    else
      var current := CurrentUpTo(entries, n - 1);
      if entries[n - 1].None? then current else current.Put(entries[n - 1].value.0, entries[n - 1].value.1)
  }

  /** `current` as read from the existing file, or `{}` when there is none. */
  function ReadEnv(existing: Option<string>): OMap<string, string> {
    if existing.None? then Empty()
    else
      var entries := Entries(SplitLines(existing.value));
      CurrentUpTo(entries, |entries|)
  }

  /** Every matched key is listed once. */
  lemma {:induction false} CurrentUpToValid(entries: seq<Option<(string, string)>>, n: nat)
    requires n <= |entries|
    ensures CurrentUpTo(entries, n).Valid()
  {
    if n > 0 {
      CurrentUpToValid(entries, n - 1);
      var current := CurrentUpTo(entries, n - 1);
      if entries[n - 1].Some? {
        current.PutKeepsValid(entries[n - 1].value.0, entries[n - 1].value.1);
      }
    }
  }

  /** The value of a key is that of its last matching line. */
  lemma {:induction false} LaterLineWins(entries: seq<Option<(string, string)>>, n: nat, i: nat, k: string, v: string)
    requires i < n <= |entries| && entries[i] == Some((k, v))
    requires forall j :: i < j < n ==> entries[j].None? || entries[j].value.0 != k
    ensures k in CurrentUpTo(entries, n).vals && CurrentUpTo(entries, n).vals[k] == v
  {
    if n > i + 1 {
      LaterLineWins(entries, n - 1, i, k, v);
    }
  }

  /** Only the keys of matching lines are read. */
  lemma {:induction false} OnlyMatchedKeys(entries: seq<Option<(string, string)>>, n: nat, k: string)
    requires n <= |entries|
    ensures k in CurrentUpTo(entries, n).vals <==> exists i :: 0 <= i < n && entries[i].Some? && entries[i].value.0 == k
  {
    if n > 0 {
      OnlyMatchedKeys(entries, n - 1, k);
    }
  }

  /** `String(v == null ? "" : v)`, where `v` is given as its `String` unless it is `null` or
      `undefined`. */
  function Stringified(v: Option<string>): string {
    v.GetOr("")
  }

  /** `current` after the first `n` changes. */
  function ChangedUpTo(current: OMap<string, string>, changes: seq<(string, Option<string>)>, n: nat): OMap<string, string>
    requires n <= |changes|
  {
    if n == 0 then current
    else ChangedUpTo(current, changes, n - 1).Put(changes[n - 1].0, Stringified(changes[n - 1].1))
  }

  /** A key no change names keeps its value, or its absence. */
  lemma {:induction false} UnchangedKeyKept(current: OMap<string, string>, changes: seq<(string, Option<string>)>, n: nat, k: string)
    requires n <= |changes| && forall j :: 0 <= j < n ==> changes[j].0 != k
    ensures var after := ChangedUpTo(current, changes, n);
      (k in after.vals <==> k in current.vals) && (k in current.vals ==> after.vals[k] == current.vals[k])
  {
    if n > 0 {
      UnchangedKeyKept(current, changes, n - 1, k);
    }
  }

  /** A changed key takes the value of its last change. */
  lemma {:induction false} LastChangeWins(current: OMap<string, string>, changes: seq<(string, Option<string>)>, n: nat, i: nat)
    requires i < n <= |changes| && forall j :: i < j < n ==> changes[j].0 != changes[i].0
    ensures var after := ChangedUpTo(current, changes, n);
      changes[i].0 in after.vals && after.vals[changes[i].0] == Stringified(changes[i].1)
  {
    if n > i + 1 {
      LastChangeWins(current, changes, n - 1, i);
    }
  }

  /** The changes keep every key listed once. */
  lemma {:induction false} ChangedUpToValid(current: OMap<string, string>, changes: seq<(string, Option<string>)>, n: nat)
    requires current.Valid() && n <= |changes|
    ensures ChangedUpTo(current, changes, n).Valid()
  {
    if n > 0 {
      ChangedUpToValid(current, changes, n - 1);
      ChangedUpTo(current, changes, n - 1).PutKeepsValid(changes[n - 1].0, Stringified(changes[n - 1].1));
    }
  }

  /** The settings the panel manages, always written. */
  const ListedKeys: seq<string> := ["TELEGRAM_BOT_TOKEN", "TELEGRAM_CHAT_ID", "PORT", "BIND_HOST", "CRON_SCHEDULE",
                                   "INTERVAL_HOURS", "DISABLE_INTERNAL_CRON", "ADMIN_USER", "ADMIN_PASS", "JWT_SECRET"]

  /** `Array.from(new Set(a.concat(b)))` for a list `a` without repeats: `a`, then each key of
      `b` not seen before. */
  function AppendNew(a: seq<string>, b: seq<string>): seq<string>
    decreases |b|
  {
    if |b| == 0 then a else AppendNew(if b[0] in a then a else a + [b[0]], b[1..])
  }

  /** Keys are kept once each, the first list's first and in order, then the new keys of the
      second. */
  lemma {:induction false} AppendNewKeys(a: seq<string>, b: seq<string>)
    requires forall i, j :: 0 <= i < j < |a| ==> a[i] != a[j]
    ensures var r := AppendNew(a, b);
      |a| <= |r| && r[..|a|] == a
      && (forall i, j :: 0 <= i < j < |r| ==> r[i] != r[j])
      && (forall k :: k in r <==> k in a || k in b)
    decreases |b|
  {
    if |b| > 0 {
      var a' := if b[0] in a then a else a + [b[0]];
      AppendNewKeys(a', b[1..]);
      assert a'[..|a|] == a;
      assert forall k :: k in b <==> k == b[0] || k in b[1..] by {
        assert b == [b[0]] + b[1..];
      }
    }
  }

  /** The keys written: those of `current` in order, then the `listed` ones it lacks. */
  function OutputKeys(current: OMap<string, string>, listed: seq<string>): seq<string> {
    AppendNew(current.keys, listed)
  }

  /** `current[k] || ""`. */
  function EnvValue(current: OMap<string, string>, k: string): string {
    if k in current.vals then current.vals[k] else ""
  }

  /** The `K=V` lines of the keys. */
  function EnvLines(current: OMap<string, string>, keys: seq<string>): (lines: seq<string>)
    ensures |lines| == |keys|
  {
    seq(|keys|, i requires 0 <= i < |keys| => keys[i] + "=" + EnvValue(current, keys[i]))
  }

  /** The text `updateEnv` writes for `current`, `listed` being the settings always written
      (`ListedKeys`). */
  function EnvBody(current: OMap<string, string>, listed: seq<string>): string {
    Join(EnvLines(current, OutputKeys(current, listed)), "\n")
  }

  /** The written file has one line per key, no key twice, every listed setting and every key
      of `current`, in their order first, and nothing else. */
  lemma EnvBodyKeys(current: OMap<string, string>, listed: seq<string>)
    requires current.Valid()
    ensures var keys := OutputKeys(current, listed);
      (forall i, j :: 0 <= i < j < |keys| ==> keys[i] != keys[j])
      && (forall k :: k in keys <==> k in current.vals || k in listed)
      && |current.keys| <= |keys| && keys[..|current.keys|] == current.keys
  {
    AppendNewKeys(current.keys, listed);
  }

  /** A `K=V` line of a key and a value on one line matches, and holds no `\n`. */
  lemma EnvLineMatches(k: string, v: string)
    requires IsEnvKey(k) && OneLine(v)
    ensures EnvEntry(k + "=" + v) == Some((k, v)) && '\n' !in k + "=" + v
    ensures DropReturn(k + "=" + v) == k + "=" + v
  {
    EnvEntryMatches(k + "=" + v, k, v);
    var line := k + "=" + v;
    forall i | 0 <= i < |line| ensures line[i] != '\n' {
      if i < |k| {
        assert line[i] == k[i] && IsKeyChar(k[i]);
      } else if i > |k| {
        assert line[i] == v[i - |k| - 1];
      }
    }
    if |v| > 0 {
      assert line[|line| - 1] == v[|v| - 1];
    }
  }

  /** Split on `\r?\n`, lines that hold no `\n` and do not end in `\r`, joined by `\n`, come
      back as they were. */
  lemma SplitJoinedLines(lines: seq<string>)
    requires |lines| >= 1
    requires forall i :: 0 <= i < |lines| ==> '\n' !in lines[i] && DropReturn(lines[i]) == lines[i]
    ensures SplitLines(Join(lines, "\n")) == lines
  {
    JoinThenSplit(lines, '\n');
  }

  /** The `K=V` lines of distinct keys, none spanning lines, read back as each key's value. */
  lemma LinesReadBack(current: OMap<string, string>, keys: seq<string>, i: nat)
    requires i < |keys| && forall j, l :: 0 <= j < l < |keys| ==> keys[j] != keys[l]
    requires forall j :: 0 <= j < |keys| ==> IsEnvKey(keys[j]) && OneLine(EnvValue(current, keys[j]))
    ensures var read := ReadEnv(Some(Join(EnvLines(current, keys), "\n")));
      keys[i] in read.vals && read.vals[keys[i]] == EnvValue(current, keys[i])
  {
    var lines := EnvLines(current, keys);
    var entries := Entries(lines);
    forall j | 0 <= j < |keys|
      ensures entries[j] == Some((keys[j], EnvValue(current, keys[j])))
      ensures '\n' !in lines[j] && DropReturn(lines[j]) == lines[j]
    {
      EnvLineMatches(keys[j], EnvValue(current, keys[j]));
    }
    SplitJoinedLines(lines);
    LaterLineWins(entries, |entries|, i, keys[i], EnvValue(current, keys[i]));
  }

  /** The file `updateEnv` writes reads back, on the next `updateEnv`, as every written key
      with its written value, when every key of `current` and every listed setting is a
      `[A-Z0-9_]+` name and no value spans lines. */
  lemma EnvBodyReadsBack(current: OMap<string, string>, listed: seq<string>, k: string)
    requires current.Valid()
    requires forall key :: key in current.vals ==> IsEnvKey(key) && OneLine(current.vals[key])
    requires forall key :: key in listed ==> IsEnvKey(key)
    requires k in OutputKeys(current, listed)
    ensures var read := ReadEnv(Some(EnvBody(current, listed)));
      k in read.vals && read.vals[k] == EnvValue(current, k)
  {
    var keys := OutputKeys(current, listed);
    EnvBodyKeys(current, listed);
    forall j | 0 <= j < |keys| ensures IsEnvKey(keys[j]) && OneLine(EnvValue(current, keys[j])) {
      assert keys[j] in current.vals || keys[j] in listed;
    }
    var i :| 0 <= i < |keys| && keys[i] == k;
    LinesReadBack(current, keys, i);
  }

  /** The listed settings are `[A-Z0-9_]+` names. */
  lemma ListedKeysAreEnvKeys()
    ensures forall k :: k in ListedKeys ==> IsEnvKey(k)
  {
    forall i | 0 <= i < |ListedKeys| ensures IsEnvKey(ListedKeys[i]) {
      var k := ListedKeys[i];
      forall j | 0 <= j < |k| ensures IsKeyChar(k[j]) {
      }
    }
  }

  /** The matches of the lines, one at a time. */
  method MatchLines(lines: seq<string>) returns (entries: seq<Option<(string, string)>>)
    ensures entries == Entries(lines)
  {
    entries := [];
    for i := 0 to |lines|
      invariant |entries| == i
      invariant forall j :: 0 <= j < i ==> entries[j] == EnvEntry(lines[j])
    {
      entries := entries + [EnvEntry(lines[i])];
    }
  }

  /** `current` filled from the matches in order. */
  method CollectEnv(entries: seq<Option<(string, string)>>) returns (current: OMap<string, string>)
    ensures current == CurrentUpTo(entries, |entries|)
  {
    current := Empty();
    for i := 0 to |entries|
      invariant current == CurrentUpTo(entries, i)
    {
      if entries[i].Some? {
        current := current.Put(entries[i].value.0, entries[i].value.1);
      }
    }
  }

  /** `current` read from the file, if there is one. */
  method ReadCurrent(existing: Option<string>) returns (current: OMap<string, string>)
    ensures current == ReadEnv(existing)
  {
    if existing.None? {
      return Empty();
    }
    var entries := MatchLines(SplitLines(existing.value));
    current := CollectEnv(entries);
  }

  /** The changes applied to `current` in `Object.entries` order. */
  method ApplyChanges(current: OMap<string, string>, changes: seq<(string, Option<string>)>) returns (after: OMap<string, string>)
    ensures after == ChangedUpTo(current, changes, |changes|)
  {
    after := current;
    for i := 0 to |changes|
      invariant after == ChangedUpTo(current, changes, i)
    {
      var (k, v) := changes[i];
      after := after.Put(k, Stringified(v));
    }
  }

  /** `updateEnv(changes)`: the text written to `.env`, given the file's text if it exists. The
      update of `process.env` is not modelled. */
  method UpdateEnv(existing: Option<string>, changes: seq<(string, Option<string>)>) returns (body: string)
    ensures body == EnvBody(ChangedUpTo(ReadEnv(existing), changes, |changes|), ListedKeys)
  {
    var current := ReadCurrent(existing);
    current := ApplyChanges(current, changes);
    body := EnvBody(current, ListedKeys);
  }

  /** Every key read or changed is a `[A-Z0-9_]+` name, and no value read or changed spans
      lines. */
  ghost predicate WellFormedUpdate(read: OMap<string, string>, changes: seq<(string, Option<string>)>) {
    (forall key :: key in read.vals ==> IsEnvKey(key) && OneLine(read.vals[key]))
    && (forall j :: 0 <= j < |changes| ==> IsEnvKey(changes[j].0) && OneLine(Stringified(changes[j].1)))
  }

  /** The keys after the changes are still names, and their values still on one line. */
  lemma ChangedWellFormed(read: OMap<string, string>, changes: seq<(string, Option<string>)>, key: string)
    requires WellFormedUpdate(read, changes)
    requires key in ChangedUpTo(read, changes, |changes|).vals
    ensures IsEnvKey(key) && OneLine(ChangedUpTo(read, changes, |changes|).vals[key])
  {
    if forall j :: 0 <= j < |changes| ==> changes[j].0 != key {
      UnchangedKeyKept(read, changes, |changes|, key);
    } else {
      var l :| 0 <= l < |changes| && changes[l].0 == key;
      var last := LastChange(changes, key, l);
      LastChangeWins(read, changes, |changes|, last);
    }
  }

  /** What a later read of the file `updateEnv` wrote gives for a key it changed: its last
      change, when every key read or changed is a `[A-Z0-9_]+` name, and no value spans lines. */
  lemma ChangeReadsBack(existing: Option<string>, changes: seq<(string, Option<string>)>, listed: seq<string>, i: nat)
    requires i < |changes| && forall j :: i < j < |changes| ==> changes[j].0 != changes[i].0
    requires WellFormedUpdate(ReadEnv(existing), changes) && forall key :: key in listed ==> IsEnvKey(key)
    ensures var after := ChangedUpTo(ReadEnv(existing), changes, |changes|);
      var read := ReadEnv(Some(EnvBody(after, listed)));
      changes[i].0 in read.vals && read.vals[changes[i].0] == Stringified(changes[i].1)
  {
    var read := ReadEnv(existing);
    var after := ChangedUpTo(read, changes, |changes|);
    ReadEnvValid(existing);
    ChangedUpToValid(read, changes, |changes|);
    forall key | key in after.vals ensures IsEnvKey(key) && OneLine(after.vals[key]) {
      ChangedWellFormed(read, changes, key);
    }
    LastChangeWins(read, changes, |changes|, i);
    EnvBodyKeys(after, listed);
    EnvBodyReadsBack(after, listed, changes[i].0);
  }

  /** The last change of a key some change names. */
  lemma LastChange(changes: seq<(string, Option<string>)>, k: string, l: nat) returns (last: nat)
    requires l < |changes| && changes[l].0 == k
    ensures l <= last < |changes| && changes[last].0 == k
    ensures forall j :: last < j < |changes| ==> changes[j].0 != k
    decreases |changes| - l
  {
    if exists j :: l < j < |changes| && changes[j].0 == k {
      var j :| l < j < |changes| && changes[j].0 == k;
      last := LastChange(changes, k, j);
    } else {
      last := l;
    }
  }

  /** `current` as read lists every key once. */
  lemma ReadEnvValid(existing: Option<string>)
    ensures ReadEnv(existing).Valid()
  {
    if existing.Some? {
      var entries := Entries(SplitLines(existing.value));
      CurrentUpToValid(entries, |entries|);
    }
  }

  // ---------------------------------------------------------------------------
  // The schedule

  /** The schedule `reloadSchedulerInitial` starts the cron with: the trimmed `CRON_SCHEDULE`
      when it is not blank, else every `floor(h)` hours for a finite `h > 0`, else every twelve
      hours. `hours` is `Number(process.env.INTERVAL_HOURS || 12)`. */
  function InitialSchedule(cronSchedule: string, hours: Number): string {
    var schedule := Trim(cronSchedule);
    if |schedule| > 0 then schedule
    else EveryHours(if hours.Finite? && hours.value > 0.0 then hours.value.Floor else 12)
  }

  /** The schedule `reloadScheduler` starts the cron with: the trimmed cron expression when it
      is not blank, else every `floor(h)` hours for `h > 0`, else every twelve hours. `hours`
      is `Number(intervalHours || process.env.INTERVAL_HOURS || 12)`. */
  function ReloadSchedule(cron: Option<string>, hours: Number): string {
    if cron.Some? && |Trim(cron.value)| > 0 then Trim(cron.value)
    else if IsPositive(hours) then EveryStep(hours)
    else DefaultSchedule
  }

  /** Start and reload choose the same schedule for every interval but an infinite one, which a
      reload writes as a step of `Infinity` and the start replaces by twelve hours. */
  lemma SchedulesAgree(cron: string, hours: Number)
    ensures !hours.Infinity? ==> ReloadSchedule(Some(cron), hours) == InitialSchedule(cron, hours)
    ensures hours.Infinity? && |Trim(cron)| == 0 ==>
      ReloadSchedule(Some(cron), hours) == "0 */Infinity * * *" && InitialSchedule(cron, hours) == EveryHours(12)
  {
    DefaultIsEveryTwelveHours();
  }

  /** A non-blank cron expression is scheduled trimmed, while the panel's next-run expression
      keeps it as given. */
  lemma CronTrimmedWhenScheduled(cron: string, hours: Number)
    requires |Trim(cron)| > 0
    ensures ReloadSchedule(Some(cron), hours) == Trim(cron) && InitialSchedule(cron, hours) == Trim(cron)
    ensures NextRunExpression(Some(cron), hours) == cron
  {
  }

  /** The upper-case letters mapped to lower case, as `toLowerCase()` does for them. */
  function LowerAscii(c: char): char {
    if 'A' <= c <= 'Z' then (c as int + 32) as char else c
  }

  /** `String(v).toLowerCase() === "true"`: no character outside ASCII lowers to one of `true`,
      so only the letters' case is ignored. */
  predicate IsTrueText(s: string) {
    |s| == 4 && LowerAscii(s[0]) == 't' && LowerAscii(s[1]) == 'r' && LowerAscii(s[2]) == 'u' && LowerAscii(s[3]) == 'e'
  }

  /** Whether `reloadScheduler` disables the cron: the `disable` flag when the request gave a
      boolean, else `DISABLE_INTERNAL_CRON` read as `true` in any case. */
  function Disabled(disable: Option<bool>, env: Option<string>): bool {
    if disable.Some? then disable.value else IsTrueText(env.GetOr(""))
  }

  /** `nextRun` after `reloadScheduler`: `null` when disabled; else the next time of the
      schedule (`computeNext`, `null` where the expression does not parse) once the cron
      accepts it, and unchanged when starting the cron throws. */
  function NextRunAfterReload(nextRun: Option<string>, disable: Option<bool>, env: Option<string>, cron: Option<string>, hours: Number,
                              starts: string -> bool, computeNext: string -> Option<string>): Option<string> {
    if Disabled(disable, env) then None
    else
      var schedule := ReloadSchedule(cron, hours);
      if starts(schedule) then computeNext(schedule) else nextRun
  }

  /** A disabled scheduler has no next run; an enabled one that starts has the next time of
      the schedule reloaded. */
  lemma ReloadNextRun(nextRun: Option<string>, disable: Option<bool>, env: Option<string>, cron: Option<string>, hours: Number,
                      starts: string -> bool, computeNext: string -> Option<string>)
    ensures Disabled(disable, env) ==> NextRunAfterReload(nextRun, disable, env, cron, hours, starts, computeNext).None?
    ensures !Disabled(disable, env) && starts(ReloadSchedule(cron, hours)) ==>
      NextRunAfterReload(nextRun, disable, env, cron, hours, starts, computeNext) == computeNext(ReloadSchedule(cron, hours))
  {
  }

  /** `DISABLE_INTERNAL_CRON=TRUE` disables as `true` does, when the request gives no flag. */
  lemma UpperCaseTrueDisables()
    ensures Disabled(None, Some("TRUE")) && Disabled(None, Some("true")) && !Disabled(None, Some("yes"))
  {
  }
}
