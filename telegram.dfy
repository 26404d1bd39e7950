/**
 * The Telegram helper of src/core/telegram.js: a message goes out in parts of
 * at most 4096 characters, and a dictionary of lines per category becomes one
 * message of titled sections of `<code>` lines.
 */
module Telegram {
  import opened Wrappers
  import opened Text
  import opened OrderedMap

  // ---------------------------------------------------------------------------
  // Chunking

  /** The longest part one `sendMessage` call sends. */
  const ChunkSize: nat := 4096

  /** `s.substring(start, end)` for `start <= end`: both ends are clamped to the length. */
  function Substring(s: string, start: nat, end: nat): (r: string)
    requires start <= end
    ensures |r| == (if end <= |s| then end - start else if start <= |s| then |s| - start else 0)
  {
    var a := if start <= |s| then start else |s|;
    var b := if end <= |s| then end else |s|;
    s[a..b]
  }

  /** The parts the loop `for (i = from; i < s.length; i += 4096)` sends, in order. */
  function ChunksFrom(s: string, from: nat): seq<string>
    decreases |s| - from
  {
    if from >= |s| then [] else [Substring(s, from, from + ChunkSize)] + ChunksFrom(s, from + ChunkSize)
  }

  /** The parts a whole message is sent in. */
  function Chunks(s: string): seq<string> {
    ChunksFrom(s, 0)
  }

  /** There are `ceil((|s| - from) / 4096)` parts. */
  lemma {:induction false} ChunksFromCount(s: string, from: nat)
    requires from <= |s|
    ensures |ChunksFrom(s, from)| == (|s| - from + ChunkSize - 1) / ChunkSize
    decreases |s| - from
  {
    if from < |s| && from + ChunkSize <= |s| {
      ChunksFromCount(s, from + ChunkSize);
    }
  }

  /** Every part but the last is exactly 4096 characters long; the last is not empty. */
  lemma {:induction false} ChunksFromSizes(s: string, from: nat)
    ensures forall k :: 0 <= k < |ChunksFrom(s, from)| - 1 ==> |ChunksFrom(s, from)[k]| == ChunkSize
    ensures |ChunksFrom(s, from)| > 0 ==> 0 < |ChunksFrom(s, from)[|ChunksFrom(s, from)| - 1]| <= ChunkSize
    decreases |s| - from
  {
    if from < |s| {
      ChunksFromSizes(s, from + ChunkSize);
      var rest := ChunksFrom(s, from + ChunkSize);
      assert ChunksFrom(s, from) == [Substring(s, from, from + ChunkSize)] + rest;
      if rest != [] {
        assert from + ChunkSize < |s|;
      }
    }
  }

  /** The parts, written one after another, give back the text from `from` on. */
  lemma {:induction false} ChunksFromConcat(s: string, from: nat)
    requires from <= |s|
    ensures Concat(ChunksFrom(s, from)) == s[from..]
    decreases |s| - from
  {
    if from < |s| {
      var parts := ChunksFrom(s, from);
      assert parts[1..] == ChunksFrom(s, from + ChunkSize);
      if from + ChunkSize <= |s| {
        ChunksFromConcat(s, from + ChunkSize);
        assert s[from..] == s[from..from + ChunkSize] + s[from + ChunkSize..];
      } else {
        assert ChunksFrom(s, from + ChunkSize) == [];
      }
    }
  }

  /** What `sendMessage` promises of its parts: `ceil(|s| / 4096)` of them, all but the last
      full, and together the whole message. */
  lemma ChunksOfMessage(s: string)
    ensures |Chunks(s)| == (|s| + ChunkSize - 1) / ChunkSize
    ensures forall k :: 0 <= k < |Chunks(s)| - 1 ==> |Chunks(s)[k]| == ChunkSize
    ensures Concat(Chunks(s)) == s
  {
    ChunksFromCount(s, 0);
    ChunksFromSizes(s, 0);
    ChunksFromConcat(s, 0);
  }

  /** The empty message is sent as no part at all. */
  lemma ChunksOfEmpty()
    ensures Chunks("") == []
  {
  }

  /** A message of 5000 characters goes out as 4096 characters, then 904. */
  lemma ChunksOf5000(s: string)
    requires |s| == 5000
    ensures |Chunks(s)| == 2 && Chunks(s)[0] == s[..4096] && Chunks(s)[1] == s[4096..]
  {
    assert ChunksFrom(s, 8192) == [];
    assert Substring(s, 4096, 8192) == s[4096..];
    assert ChunksFrom(s, 4096) == [s[4096..]];
    assert Substring(s, 0, 4096) == s[..4096];
    assert Chunks(s) == [s[..4096]] + ChunksFrom(s, 4096);
  }

  // ---------------------------------------------------------------------------
  // What is sent

  /** The chat a client was made for: `chatId` is a string or a number, sent as `String(chatId)`. */
  datatype ChatId = TextId(text: string) | NumberId(number: int) {
    function ToString(): string {
      match this
      case TextId(s) => s
      case NumberId(n) => IntToString(n)
    }
  }

  /** One Telegram `sendMessage`: the chat, the text and the parse mode. */
  datatype Sent = Sent(chatId: string, text: string, parseMode: string)

  /** One call of the injected `fetchImpl`: the Bot API URL and the JSON body's fields. */
  datatype Request = Request(url: string, body: Sent)

  /** The bodies of a list of requests, in order. */
  function BodiesOf(requests: seq<Request>): (r: seq<Sent>)
    ensures |r| == |requests| && forall k :: 0 <= k < |requests| ==> r[k] == requests[k].body
  {
    seq(|requests|, k requires 0 <= k < |requests| => requests[k].body)
  }

  /** The Bot API endpoint `sendMessage` posts to. */
  function SendUrl(token: string): string {
    "https://api.telegram.org/bot" + token + "/sendMessage"
  }

  /** The parts of a message, each sent to `chat` in HTML parse mode. */
  function SentParts(chat: string, parts: seq<string>): (r: seq<Sent>)
    ensures |r| == |parts|
    ensures forall k :: 0 <= k < |r| ==> r[k] == Sent(chat, parts[k], "HTML")
  {
    if parts == [] then [] else [Sent(chat, parts[0], "HTML")] + SentParts(chat, parts[1..])
  }

  /** The texts of a list of sends, in order. */
  function TextsOf(sent: seq<Sent>): (r: seq<string>)
    ensures |r| == |sent| && forall k :: 0 <= k < |sent| ==> r[k] == sent[k].text
  {
    seq(|sent|, k requires 0 <= k < |sent| => sent[k].text)
  }

  /** Sending a message sends `ceil(|html| / 4096)` parts, each to `chat` in HTML parse mode,
      all but the last 4096 characters long, whose texts together give back the message. */
  lemma SentPartsCarryMessage(chat: string, html: string)
    ensures var sent := SentParts(chat, Chunks(html));
      && Concat(TextsOf(sent)) == html
      && |sent| == (|html| + ChunkSize - 1) / ChunkSize
      && (forall k :: 0 <= k < |sent| ==> sent[k].chatId == chat && sent[k].parseMode == "HTML")
      && (forall k :: 0 <= k < |sent| - 1 ==> |sent[k].text| == ChunkSize)
  {
    ChunksOfMessage(html);
    assert TextsOf(SentParts(chat, Chunks(html))) == Chunks(html);
  }

  // ---------------------------------------------------------------------------
  // The grouped message

  /** `s.replace("_", " ")`: with a string pattern only the first `_` is replaced. */
  function ReplaceFirst(s: string, pattern: char, replacement: char): (r: string)
    ensures |r| == |s|
    ensures forall i :: 0 <= i < |s| ==> r[i] == (if i == IndexOf(s, pattern) then replacement else s[i])
  {
    if |s| == 0 then []
    else if s[0] == pattern then [replacement] + s[1..]
    else [s[0]] + ReplaceFirst(s[1..], pattern, replacement)
  }

  /** `toUpperCase` on one character, for the Latin letters `a`-`z`. */
  function UpperChar(c: char): char {
    if 'a' <= c <= 'z' then (c as int - 32) as char else c
  }

  /** `s.toUpperCase()`, character by character. */
  function Upper(s: string): (r: string)
    ensures |r| == |s| && forall i :: 0 <= i < |s| ==> r[i] == UpperChar(s[i])
  {
    seq(|s|, i requires 0 <= i < |s| => UpperChar(s[i]))
  }

  /** The section header of a key: its first `_` made a space, upper-cased. */
  function Header(key: string): string {
    Upper(ReplaceFirst(key, '_', ' '))
  }

  /** `<b>title:</b>` and a blank line. */
  function TitleLine(title: string): string {
    "<b>" + title + ":</b>\n\n"
  }

  /** One line of a section: `<code>line</code>` and a blank line, the line not escaped. */
  function CodeLine(line: string): string {
    "<code>" + line + "</code>\n\n"
  }

  /** The code lines of the first `n` lines. */
  function CodeLines(lines: seq<string>, n: nat): string
    requires n <= |lines|
  {
    if n == 0 then "" else CodeLines(lines, n - 1) + CodeLine(lines[n - 1])
  }

  /** The bold header line that opens the section of `key`. */
  function SectionHead(key: string): string {
    "<b>" + Header(key) + ":</b>\n"
  }

  /** The section of one key: nothing for an empty list, otherwise the header line `heading`
      gives the key and the code lines. (`sendGrouped` uses `SectionHead`; the header line is a
      parameter so that facts about the sections hold whatever it is.) */
  function Section(key: string, lines: seq<string>, heading: string -> string): string {
    if |lines| == 0 then "" else heading(key) + CodeLines(lines, |lines|)
  }

  /** The sections of the first `n` keys, in key order. */
  function Sections(g: OMap<string, seq<string>>, n: nat, heading: string -> string): string
    requires g.Keyed() && n <= |g.keys|
  {
    if n == 0 then "" else Sections(g, n - 1, heading) + Section(g.keys[n - 1], g.vals[g.keys[n - 1]], heading)
  }

  /** The message `sendGrouped(title, grouped)` sends. */
  function GroupedText(title: string, g: OMap<string, seq<string>>): string
    requires g.Keyed()
  {
    TitleLine(title) + Sections(g, |g.keys|, SectionHead)
  }

  /** Whether `sendGrouped` sends anything: not for a missing dictionary or one without keys. */
  predicate SendsGrouped(grouped: Option<OMap<string, seq<string>>>) {
    grouped.Some? && |grouped.value.keys| > 0
  }

  /** `x` occurs in `s` at `p`. */
  predicate OccursAt(x: string, s: string, p: nat) {
    p + |x| <= |s| && s[p..p + |x|] == x
  }

  /** `x` occurs in `s`. */
  ghost predicate Occurs(x: string, s: string) {
    exists p: nat :: OccursAt(x, s, p)
  }

  /** An occurrence stays one when text is added after it. */
  lemma OccursBefore(x: string, a: string, b: string)
    requires Occurs(x, a)
    ensures Occurs(x, a + b)
  {
    var p: nat :| OccursAt(x, a, p);
    assert (a + b)[p..p + |x|] == a[p..p + |x|];
    assert OccursAt(x, a + b, p);
  }

  /** An occurrence stays one when text is added before it. */
  lemma OccursAfter(x: string, a: string, b: string)
    requires Occurs(x, b)
    ensures Occurs(x, a + b)
  {
    var p: nat :| OccursAt(x, b, p);
    assert (a + b)[|a| + p..|a| + p + |x|] == b[p..p + |x|];
    assert OccursAt(x, a + b, |a| + p);
  }

  /** Every line of a list is among its code lines. */
  lemma {:induction false} LineInCodeLines(lines: seq<string>, n: nat, j: nat)
    requires j < n <= |lines|
    ensures Occurs(CodeLine(lines[j]), CodeLines(lines, n))
  {
    var x := CodeLine(lines[j]);
    var before := CodeLines(lines, n - 1);
    assert CodeLines(lines, n) == before + CodeLine(lines[n - 1]);
    if j == n - 1 {
      assert (before + x)[|before|..|before| + |x|] == x;
      assert OccursAt(x, before + x, |before|);
    } else {
      LineInCodeLines(lines, n - 1, j);
      OccursBefore(x, before, CodeLine(lines[n - 1]));
    }
  }

  /** Every line of a non-empty list is in its section. */
  lemma LineInSection(key: string, lines: seq<string>, heading: string -> string, j: nat)
    requires j < |lines|
    ensures Occurs(CodeLine(lines[j]), Section(key, lines, heading))
  {
    LineInCodeLines(lines, |lines|, j);
    OccursAfter(CodeLine(lines[j]), heading(key), CodeLines(lines, |lines|));
  }

  /** Every line of key `i`'s list is among the first `n > i` sections. */
  lemma {:induction false} LineInSections(g: OMap<string, seq<string>>, n: nat, heading: string -> string, i: nat, j: nat)
    requires g.Keyed() && i < n <= |g.keys| && j < |g.vals[g.keys[i]]|
    ensures Occurs(CodeLine(g.vals[g.keys[i]][j]), Sections(g, n, heading))
  {
    var x := CodeLine(g.vals[g.keys[i]][j]);
    var before := Sections(g, n - 1, heading);
    var last := Section(g.keys[n - 1], g.vals[g.keys[n - 1]], heading);

    if i == n - 1 {
      LineInSection(g.keys[i], g.vals[g.keys[i]], heading, j);
      OccursAfter(x, before, last);
    } else {
      LineInSections(g, n - 1, heading, i, j);
      OccursBefore(x, before, last);
    }
  }

  /** Every line of every list is in the grouped message, as `<code>line</code>`. */
  lemma LineInGroupedText(title: string, g: OMap<string, seq<string>>, i: nat, j: nat)
    requires g.Keyed() && i < |g.keys| && j < |g.vals[g.keys[i]]|
    ensures Occurs(CodeLine(g.vals[g.keys[i]][j]), GroupedText(title, g))
  {
    LineInSections(g, |g.keys|, SectionHead, i, j);
    OccursAfter(CodeLine(g.vals[g.keys[i]][j]), TitleLine(title), Sections(g, |g.keys|, SectionHead));
  }

  /** Keys whose lists are all empty add nothing to the message. */
  lemma {:induction false} EmptySections(g: OMap<string, seq<string>>, n: nat, heading: string -> string)
    requires g.Keyed() && n <= |g.keys|
    requires forall i :: 0 <= i < n ==> g.vals[g.keys[i]] == []
    ensures Sections(g, n, heading) == ""
  {
    if n > 0 {
      EmptySections(g, n - 1, heading);
    }
  }

  /** A dictionary whose keys all hold empty lists still gives a message: the title alone. */
  lemma TitleOnlyMessage(title: string, g: OMap<string, seq<string>>)
    requires g.Keyed() && forall i :: 0 <= i < |g.keys| ==> g.vals[g.keys[i]] == []
    ensures GroupedText(title, g) == TitleLine(title)
  {
    EmptySections(g, |g.keys|, SectionHead);
  }

  /** The grouped message opens with the title line. */
  lemma GroupedTextStartsWithTitle(title: string, g: OMap<string, seq<string>>)
    requires g.Keyed()
    ensures |TitleLine(title)| <= |GroupedText(title, g)|
    ensures GroupedText(title, g)[..|TitleLine(title)|] == TitleLine(title)
  {
    assert GroupedText(title, g) == TitleLine(title) + Sections(g, |g.keys|, SectionHead);
  }

  /** The header keeps the key's length; the first `_` becomes a space, every later character
      stays (a later `_` included) and is upper-cased. */
  lemma HeaderChars(key: string)
    ensures |Header(key)| == |key|
    ensures forall i :: 0 <= i < |key| && i == IndexOf(key, '_') ==> Header(key)[i] == ' '
    ensures forall i :: 0 <= i < |key| && i != IndexOf(key, '_') ==> Header(key)[i] == UpperChar(key[i])
  {
  }

  /** Replacing the first `p` of a string whose prefix `pre` holds no `p` changes only the `p` after `pre`. */
  lemma ReplaceAfter(pre: string, post: string, p: char, r: char)
    requires p !in pre
    ensures ReplaceFirst(pre + [p] + post, p, r) == pre + [r] + post
  {
    IndexAfter(pre, post, p);
  }

  lemma SpacedObfs4Ipv4()
    ensures ReplaceFirst("obfs4_ipv4", '_', ' ') == "obfs4 ipv4"
  {
    Obfs4Ipv4Parts();
    ReplaceAfter("obfs4", "ipv4", '_', ' ');
  }

  /** The two strings split at the sixth character. */
  lemma Obfs4Ipv4Parts()
    ensures "obfs4" + ['_'] + "ipv4" == "obfs4_ipv4"
    ensures "obfs4" + [' '] + "ipv4" == "obfs4 ipv4"
  {
  }

  lemma UpperObfs4Ipv4()
    ensures Upper("obfs4 ipv4") == "OBFS4 IPV4"
  {
    var upper := Upper("obfs4 ipv4");
    assert upper[0] == 'O' && upper[1] == 'B' && upper[2] == 'F' && upper[3] == 'S' && upper[4] == '4' && upper[5] == ' ' && upper[6] == 'I' && upper[7] == 'P' && upper[8] == 'V' && upper[9] == '4';
  }

  /** `obfs4_ipv4` is headed `OBFS4 IPV4`. */
  lemma HeaderOfObfs4Ipv4()
    ensures Header("obfs4_ipv4") == "OBFS4 IPV4"
  {
    SpacedObfs4Ipv4();
    UpperObfs4Ipv4();
  }

  // ---------------------------------------------------------------------------
  // createTelegram

  /** The object `createTelegram({ token, chatId, fetchImpl })` returns; `requests` records the
      calls made to `fetchImpl`, in order. */
  class TelegramClient {
    const token: string
    const chat: string
    var requests: seq<Request>

    constructor(token: string, chatId: ChatId)
      ensures this.token == token && chat == chatId.ToString() && requests == []
    {
      this.token := token;
      chat := chatId.ToString();
      requests := [];
    }

    /** The requests that send `parts` to this client's chat. */
    function RequestsFor(parts: seq<string>): (r: seq<Request>)
      ensures |r| == |parts|
      ensures forall k :: 0 <= k < |r| ==> r[k] == Request(SendUrl(token), Sent(chat, parts[k], "HTML"))
    {
      if parts == [] then [] else [Request(SendUrl(token), Sent(chat, parts[0], "HTML"))] + RequestsFor(parts[1..])
    }

    /** Every request goes to this client's `sendMessage` URL, and its bodies are the parts as
        sent to this client's chat. */
    lemma RequestsAreSentParts(parts: seq<string>)
      ensures forall k :: 0 <= k < |parts| ==> RequestsFor(parts)[k].url == SendUrl(token)
      ensures BodiesOf(RequestsFor(parts)) == SentParts(chat, parts)
    {
    }

    /** Sending one more part first adds its request in front. */
    lemma RequestsForCons(part: string, rest: seq<string>)
      ensures RequestsFor([part] + rest) == [Request(SendUrl(token), Sent(chat, part, "HTML"))] + RequestsFor(rest)
    {
      assert ([part] + rest)[1..] == rest;
    }

    /** `sendMessage(html)`: one request per part of at most 4096 characters. */
    method SendMessage(html: string)
      modifies this
      ensures requests == old(requests) + RequestsFor(Chunks(html))
    {
      var i: nat := 0;
      while i < |html|
        invariant requests + RequestsFor(ChunksFrom(html, i)) == old(requests) + RequestsFor(Chunks(html))
        decreases |html| - i
      {
        var part := Substring(html, i, i + ChunkSize);
        var request := Request(SendUrl(token), Sent(chat, part, "HTML"));
        var rest := ChunksFrom(html, i + ChunkSize);
        assert ChunksFrom(html, i) == [part] + rest;
        RequestsForCons(part, rest);
        AppendTwice(requests, [request], RequestsFor(rest));
        requests := requests + [request];
        i := i + ChunkSize;
      }
      assert requests + RequestsFor(ChunksFrom(html, i)) == requests + [];
    }

    /** `sendGrouped(title, grouped)`: nothing for a missing or key-less dictionary, otherwise
        the grouped message through `sendMessage`. */
    method SendGrouped(title: string, grouped: Option<OMap<string, seq<string>>>)
      requires grouped.Some? ==> grouped.value.Keyed()
      modifies this
      ensures !SendsGrouped(grouped) ==> requests == old(requests)
      ensures SendsGrouped(grouped) ==> requests == old(requests) + RequestsFor(Chunks(GroupedText(title, grouped.value)))
    {
      if grouped.None? || |grouped.value.keys| == 0 {
        return;
      }
      var message := BuildGroupedText(title, grouped.value);
      SendMessage(message);
    }
  }

  /** Appending `b` then `c` is appending `b + c`. */
  lemma AppendTwice<T>(a: seq<T>, b: seq<T>, c: seq<T>)
    ensures (a + b) + c == a + (b + c)
  {
  }

  /** The `message +=` loops of `sendGrouped`: the title line, then each key's section in
      key order. */
  method BuildGroupedText(title: string, g: OMap<string, seq<string>>) returns (message: string)
    requires g.Keyed()
    ensures message == GroupedText(title, g)
  {
    message := AppendSections(TitleLine(title), g, SectionHead);
  }

  /** The outer loop, over `Object.entries(grouped)`, with `heading` giving each key's header line. */
  method AppendSections(head: string, g: OMap<string, seq<string>>, heading: string -> string) returns (message: string)
    requires g.Keyed()
    ensures message == head + Sections(g, |g.keys|, heading)
  {
    message := head;
    SectionsNone(head, g, heading);
    for i := 0 to |g.keys|
      invariant message == head + Sections(g, i, heading)
    {
      message := AppendKey(head, g, heading, i, message);
    }
  }

  /** Before the first key, the message is what it started as. */
  lemma SectionsNone(head: string, g: OMap<string, seq<string>>, heading: string -> string)
    requires g.Keyed()
    ensures head + Sections(g, 0, heading) == head
  {
    assert Sections(g, 0, heading) == [];
  }

  /** One pass of the outer loop: key `i`'s section appended. */
  method AppendKey(head: string, g: OMap<string, seq<string>>, heading: string -> string, i: nat, message: string) returns (r: string)
    requires g.Keyed() && i < |g.keys| && message == head + Sections(g, i, heading)
    ensures r == head + Sections(g, i + 1, heading)
  {
    var key := g.keys[i];
    r := AppendSection(message, key, g.vals[key], heading);
    SectionsStep(head, g, heading, i, message, r);
  }

  /** Appending key `i`'s section to the sections before it gives the sections up to key `i`. */
  lemma SectionsStep(head: string, g: OMap<string, seq<string>>, heading: string -> string, i: nat, before: string, after: string)
    requires g.Keyed() && i < |g.keys|
    requires before == head + Sections(g, i, heading) && after == before + Section(g.keys[i], g.vals[g.keys[i]], heading)
    ensures after == head + Sections(g, i + 1, heading)
  {
    AppendTwice(head, Sections(g, i, heading), Section(g.keys[i], g.vals[g.keys[i]], heading));
  }

  /** The inner loop of `sendGrouped` for one key: its header and one code line per line,
      unless the list is empty. */
  method AppendSection(message: string, key: string, lines: seq<string>, heading: string -> string) returns (r: string)
    ensures r == message + Section(key, lines, heading)
  {
    r := message;
    if |lines| > 0 {
      var head := message + heading(key);
      r := head;
      for j := 0 to |lines|
        invariant r == head + CodeLines(lines, j)
      {
        r := r + CodeLine(lines[j]);
      }
      AppendTwice(message, heading(key), CodeLines(lines, |lines|));
    }
  }

}
