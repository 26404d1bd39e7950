# Tor bridge harvester: a verified model

This project models the core of a small Node.js service. The service harvests Tor
bridge lines from the Tor Project's bridge pages and stores them in one JSON file per
category. The categories are `obfs4_ipv4`, `obfs4_ipv6`, `webtunnel_ipv4` and
`webtunnel_ipv6`. The service announces new bridges on Telegram and is run from an HTTP
panel behind a login.

A run (`runOnce`) works in five steps:

1. Fetch each bridge page and extract candidate lines with two regular expressions
   (`extractBridgeLinesRegex`).
2. Classify each line with the stricter patterns of `parseAndClassifyBridge`. A line is
   accepted into one of the four categories or refused as malformed.
3. Split the accepted lines of each category into new lines and duplicates
   (`toSets`, `dedupeWithinType`).
4. Append a record for each new line to its category's file.
5. Report on Telegram: the new lines, a one-second pause, the duplicates, then the
   malformed lines. A text longer than 4096 characters is sent in 4096-character parts
   (`createTelegram` and `NodeTelegramNotifier`).

The panel side is modelled as well:

- the JWT session (`base64url`, `signJWT`, `verifyJWT`);
- cookie parsing;
- the login throttle, in its two phases: the lock check as a request arrives, and the
  judgement after its body has been read, between which other requests may run;
- `authGuard` with its CSRF check;
- the next-run expression.

The server process is modelled as well:

- the `triggerRun` busy flag;
- the 500-line log ring buffer;
- the `.env` rewrite of `updateEnv`;
- the two scheduler start-ups.

Modules, one per source file or concern:

- `Text`, `Wrappers`, `OrderedMap`: JavaScript strings (`trim`, `split`, `indexOf`),
  options, and plain objects with their key order.
- `Bridges`: the four categories and the classified record.
- `BridgePatterns`: hand-written matchers for the four regular expressions. Each has a
  predicate for where a match lies and a scanner proved to find exactly those matches.
  JavaScript's leftmost match and its successive `exec` matches are stated over them.
- `Parse`, `ParseExamples`: `src/core/parse.js` and its tests.
- `FetchBridges`, `Pages`: `src/core/fetchBridges.js` and the fetch loop of `runOnce`.
- `ExtractVsClassify`: how the extractor's and the classifier's patterns relate.
- `Dedupe`: `src/core/dedupe.js`. `dedupeWithinType` mutates the caller's sets, so it is
  a method of class `KnownSets`. It is proved against an independent, per-line reference
  definition.
- `Core`, `RunProperties`: `src/core.js`. The store is a class whose `Append` changes its
  files. `RunOnce` is proved equal to the specification functions `ReportFor`,
  `NoticesFor` and `FilesFor`. Whole-run properties are lemmas about those functions.
- `Telegram`, `NodeTelegram`: the two notifiers. Each is a class that records the calls
  it makes.
- `Base64`, `ServerRouter`: `src/panel/server-router.js`.
- `Server`: `src/server.js`.

The network, the file system, the clock, HMAC-SHA256, `JSON.parse`, the cron libraries
and `decodeURIComponent` are parameters. The fetched pages are a sequence of
`Fetched` values. The current time is a string or number argument. `hmac`, `parse`,
`decode`, `starts` and `computeNext` are function arguments, so every property holds
whatever they do.

## Model

| member | source | states |
|---|---|---|
| Parse.RemoveBrackets | src/core/parse.js:26 | The result holds no `[` or `]`, and keeps every other character of the input. |
| Parse.ParseAndClassifyBridge | src/core/parse.js:14-63 | A trimmed line whose first space-separated token is neither `obfs4` nor `webtunnel` is refused. An accepted line gets the transport of its first token. Its record has the trimmed line as `bridge`. Its category is `_ipv6` exactly when the bracket-free host holds a colon. Its port is digits and its fingerprint is 40 upper-case hex digits. |
| Parse.AcceptedIffPatternMatches | src/core/parse.js:18-24 | For a line whose first token names a transport, the line is accepted if and only if that transport's regular expression matches somewhere in the trimmed line. |
| Parse.ParseRender | src/core/parse.js:14-63 | Round trip: a canonical line built from a host, port, fingerprint and two values classifies to exactly those parts. Its category follows the transport and whether the host holds a colon, and its `bridge` is the line. |
| Parse.ParseOfTrim | src/core/parse.js:15 | Classifying a line and classifying its trim give the same result. |
| Parse.DottedHostIsIPv4 | src/core/parse.js:22-27 | A line whose leftmost match has a dotted host is accepted as `_ipv4`, with the dotted host as `ip`. |
| ParseExamples.Obfs4TestLineClassified | test/parse.test.js:6-11 | The first test's literal obfs4 line is accepted as `obfs4_ipv4` with ip `1.2.3.4` and port `443`. |
| ParseExamples.WebtunnelTestLineClassified | test/parse.test.js:13-18 | The second test's literal webtunnel line is accepted as `webtunnel_ipv6` with ip `2001:db8::1`. |
| ParseExamples.BracketedWithoutColonIsIPv4 | src/core/parse.js:22-27 | `[ABCD]` matches the bracketed alternative, loses its brackets and is classified `obfs4_ipv4`, since only a colon makes a host IPv6. |
| ParseExamples.OctetsAreNotRangeChecked | src/core/parse.js:22 | `999.999.999.999` is accepted as an `obfs4_ipv4` host: groups are 1-3 digits with no range check. |
| Bridges.NameInjective | src/core/parse.js:27-49 | Two categories have the same name, such as `obfs4_ipv4`, if and only if they are the same category. |
| BridgePatterns.Run | src/core/parse.js:22 | A greedy run of a character class stops at the first character outside the class. |
| BridgePatterns.LineMatchAtComplete | src/core/parse.js:22 | Whenever the classifier pattern matches at a position, the scanner returns exactly that match. |
| BridgePatterns.FirstLineMatch | src/core/parse.js:21-23 | The search returns a match at or after its start, and no match lies to the left of the one it returns, as `String.prototype.match` does. |
| BridgePatterns.FirstLineMatchIsLeftmost | src/core/parse.js:21-23 | If the pattern matches anywhere, the leftmost search succeeds, at or before that position. |
| BridgePatterns.ShapeMatchesOrdered | src/core/fetchBridges.js:14-15 | The successive `exec` matches lie inside the text, go left to right and do not overlap. |
| BridgePatterns.ShapeMatchesAreMatches | src/core/fetchBridges.js:14-15 | Each successive match is the engine's match at its start. |
| BridgePatterns.ShapeMatchesCover | src/core/fetchBridges.js:14-15 | Every position where the pattern matches is the start of a successive match or lies inside one. |
| FetchBridges.Add | src/core/fetchBridges.js:14 | `set.add`: appends an element not yet present, leaves the set unchanged otherwise, and keeps it free of repeats. |
| FetchBridges.AddAll | src/core/fetchBridges.js:14-15 | Adding elements one by one keeps the earlier ones in front. The result holds exactly the old and the added elements, without repeats. |
| FetchBridges.Extracted | src/core/fetchBridges.js:8-17 | The result has no repeats and holds exactly the texts either regular expression matches. |
| FetchBridges.ExtractBridgeLinesRegex | src/core/fetchBridges.js:8-17 | The two `exec` loops return exactly `Extracted`. |
| FetchBridges.AddAllIsFirstOccurrences | src/core/fetchBridges.js:14-15 | Insertion into the set lists the elements in order of first occurrence. |
| FetchBridges.ExtractedOrder | src/core/fetchBridges.js:8-17 | The obfs4 lines come first, in order of first occurrence, then the webtunnel lines, in order of first occurrence. |
| FetchBridges.NoTextNoLines | src/core/fetchBridges.js:10 | A missing or empty page gives no lines. |
| FetchBridges.ExtractedLineIsMatch | src/core/fetchBridges.js:11-15 | Every returned line is the text one of the two patterns matches at some position of the page. |
| FetchBridges.MatchIsCovered | src/core/fetchBridges.js:11-15 | No match is lost: every position where a pattern matches lies inside a returned match of that pattern. |
| FetchBridges.MatchesDoNotOverlap | src/core/fetchBridges.js:14-15 | The matches of one pattern are disjoint and in text order. |
| ExtractVsClassify.RenderIsExtracted | src/core/fetchBridges.js:11-12 | A canonical bridge line whose host has no spaces is found by the extractor in a page holding just that line. |
| ExtractVsClassify.HostNameIsExtractedButNotClassified | src/core/parse.js:22 | The extractor's `\S+` host is looser than the classifier's: a line with a host name is extracted but then refused as malformed. |
| Pages.PageLineLists | src/core.js:37-44 | One list of lines per URL, in URL order, each being that fetch's lines. |
| Pages.LinesFromPages | src/core.js:37-44 | A line is collected if and only if one of the URLs gave it. |
| Pages.NoLinesWith | src/core.js:37-44 | No line is collected if and only if no URL gave one. |
| Pages.FailedFetchSkipped | src/core.js:38-43 | A URL that gives `null` or an empty page, or whose fetch throws, is skipped: the run collects exactly what it collects without that URL. |
| Pages.FlatConcat | src/core.js:42 | Pushing two groups of lists gives the first group's elements, then the second's. |
| Dedupe.ToSets | src/core/dedupe.js:8-18 | One set per document key. Each set holds exactly the trimmed `bridge` strings of the document's entries. |
| Dedupe.KnownOfMembers | src/core/dedupe.js:13-14 | A line is in a document's set if and only if some entry has it as trimmed `bridge`. A document without a `bridges` array gives the empty set. |
| Dedupe.Turn | src/core/dedupe.js:32-42 | One loop turn: a line its category's set holds is pushed onto the duplicates and nothing else changes. Any other line is pushed onto the new lines and added to the set, which is created where missing. |
| Dedupe.KnownSets.constructor | src/core/dedupe.js:25 | The object holds the caller's sets as given. |
| Dedupe.KnownSets.DedupeWithinType | src/core/dedupe.js:25-45 | Returns the new and duplicate lines by category, and leaves the caller's sets grown exactly as the loop grows them. |
| Dedupe.DedupeIsReference | src/core/dedupe.js:25-45 | Each category's new list is exactly the trimmed lines that are neither known nor seen earlier in that category. Its duplicate list is the rest. Both keep input order. |
| Dedupe.DedupeNonEmptyLists | src/core/dedupe.js:35-41 | Both results list each key once, and a key appears only with at least one line under it. |
| Dedupe.NewAndDupLengths | src/core/dedupe.js:31-42 | Every entry of a category lands on exactly one side: the two list lengths add up to the category's entries. |
| Dedupe.NewAndDupCoverLines | src/core/dedupe.js:31-42 | A line is on one of the two sides if and only if an entry of the category has it. |
| Dedupe.NewLinesAreUnknown | src/core/dedupe.js:35-42 | Every new line was unknown before the call and comes from an entry of that category. |
| Dedupe.NewLinesNoRepeats | src/core/dedupe.js:35-42 | A category's new lines have no repeats. |
| Dedupe.SeenIsKnownOrNew | src/core/dedupe.js:35-42 | Every line seen in a category was known beforehand or is one of the new lines. |
| Dedupe.KnownGrowsByNewLines | src/core/dedupe.js:34-42 | Afterwards each set is its old contents plus the category's new lines. A key is added for every category in the batch, and nothing else changes. |
| Dedupe.AllKnownNoNewKeys | src/core/dedupe.js:35-39 | When every trimmed line is already known for its category, no new line is reported. |
| Dedupe.AllKnownAllDuplicates | src/core/dedupe.js:35-39 | When every line is already known for its category, every entry is a duplicate. |
| Dedupe.RunScenario | test/dedupe.test.js:6-20 | For any distinct `a` and `b` with `a` known, the batch `a`, `b`, `x`, `x` has `b` and the first `x` new. `a` and the second `x` are duplicates, and the sets end up holding `a`, `b` and `x`. |
| Dedupe.DedupeTestExample | test/dedupe.test.js:6-20 | The repository's test items give new lines `B` and `X` and duplicates `A` and `X`, under `obfs4_ipv4` and `webtunnel_ipv6` in that order. |
| Core.Store.constructor | src/core.js:11-16 | The store holds the given files. |
| Core.Store.ReadAll | src/core.js:32 | `readAll` gives one document per category, in file order, holding that category's records. |
| Core.Store.Append | src/core.js:71 | `append(t, data)` adds the record at the end of `t`'s file, and every other file is unchanged. |
| Core.Docs | src/core.js:32 | The documents are keyed by the four categories, in order. |
| Core.KnownOfRecords | src/core.js:32-33 | A line is known for a category if and only if one of its records has it as trimmed `bridge`. |
| Core.KnownFromDocs | src/core.js:32-33 | `toSets(readAll())` gives the known sets of the files. |
| Core.AppliedFiles | src/core.js:68-74 | Appends only add records: each file keeps what it had and ends with the records sent to it, in the order sent. |
| Core.Results | src/core.js:60-61 | One classification per collected line, in order. |
| Core.Partition | src/core.js:60-64 | Every collected line lands on exactly one side. A line is malformed if and only if the classifier refuses it. It is an item of category `t` if and only if the classifier accepts it under `t`. |
| Core.ClassifyIgnoresTime | src/core/parse.js:38-60 | The timestamp only goes into `addedAt`. Acceptance, category and `bridge` do not depend on it. |
| Core.ItemsReclassify | src/core.js:69-71 | Every item is accepted again when the store loop classifies its trimmed line, under the same category and with the trimmed line as `bridge`. So no new line is lost between deduplication and storing. |
| Core.StoredNewLines | src/core.js:68-74 | The store loop makes exactly one append per new line, to that line's category, in the order of the category's list. |
| Core.NamesInjective | src/core.js:73-75 | Different categories get different keys in the reported dictionaries. |
| Core.NamedLists | src/core.js:73-75 | The reported dictionary has a category's name if and only if the grouping has the category, and then holds the same list. |
| Core.NameAll | src/core.js:75 | The copy loop builds the named dictionary with keys in the grouping's order. |
| Core.MalformedLinesShown | src/core.js:84-85 | The malformed message opens with its heading and shows every malformed line as a code line. |
| Core.MalformedMessage | src/core.js:84-85 | The loop builds the malformed message text. |
| Core.CollectLines | src/core.js:36-44 | The fetch loop collects each usable page's lines, URL by URL. |
| Core.ClassifyLines | src/core.js:59-64 | The classification loop splits the lines into items and malformed lines, in order. |
| Core.StoreList | src/core.js:69-72 | The inner store loop applies one append per accepted line of the list. |
| Core.StoreCategory | src/core.js:68-74 | One round of the store loop stores that category's records and copies its list into `newBridges`. |
| Core.StoreNewLines | src/core.js:68-74 | The store loop leaves `newBridges` holding the new lists under their names. The files are the old files plus the appends of every new line. |
| Core.RunOnce | src/core.js:31-90 | `runOnce` returns `ReportFor` of the collected lines, makes the calls `NoticesFor` lists, and leaves the files as `FilesFor` says. The properties of those three functions are proved in `RunProperties`. |
| Core.ProcessLines | src/core.js:46-89 | Everything after the fetch loop, stated against the same three functions. |
| Core.Notify | src/core.js:77-87 | The reporting calls of a run that found lines. |
| RunProperties.ReportNoticesShape | src/core.js:77-87 | With new lines, the first calls are the "Latest Tor Bridges" message and a 1000 ms pause. The duplicate message always follows. The malformed message is the last call exactly when there are malformed lines. |
| RunProperties.NoLinesOnlyFailure | src/core.js:53-56 | No line is collected if and only if every URL gave nothing. Then the failure message is the only call, nothing is stored and the report is empty. A run that collected lines never sends the failure message alone. |
| RunProperties.RunStoresNewLines | src/core.js:68-74 | A run only appends. What it adds to a category is one record per new line, with the line as `bridge`, in the new list's order. |
| RunProperties.NewLinesNamed | src/core.js:73 | The reported `newBridges` holds each category that has new lines, under its name and with its list. |
| RunProperties.NewLinesAnnouncedFirst | src/core.js:77-78 | When there are new lines, the first call sends the "Latest Tor Bridges" message, whose dictionary has each such category's list. |
| RunProperties.NewLineShown | src/core.js:78 | Every new line appears as a `<code>` line in the announcement text. |
| RunProperties.MalformedReported | src/core.js:83-87 | A refused line is listed in the report. The last call sends the malformed message, which shows that line. |
| RunProperties.NoMalformedMessage | src/core.js:83 | When every line is accepted, no malformed message is sent. |
| RunProperties.NewLineKept | src/core.js:68-74 | A new line of a run is known afterwards. |
| RunProperties.RecordKept | src/core.js:71 | A known line stays known after a run. |
| RunProperties.RerunFindsNothingNew | src/core.js:31-90 | Run again on the same pages against the files the first run left, a run finds nothing new and stores nothing. It reports every line the first run found new as a duplicate. |
| Telegram.Substring | src/core/telegram.js:15 | `substring` with both ends clamped to the length. |
| Telegram.ChunksFromCount | src/core/telegram.js:14 | The loop sends `ceil(length / 4096)` parts. |
| Telegram.ChunksFromSizes | src/core/telegram.js:13-15 | Every part but the last is exactly 4096 characters, and the last is not empty. |
| Telegram.ChunksFromConcat | src/core/telegram.js:14-15 | The parts, one after another, give back the message. |
| Telegram.ChunksOfMessage | src/core/telegram.js:12-23 | Part count, part sizes and reassembly for a whole message. |
| Telegram.ChunksOfEmpty | src/core/telegram.js:14 | The empty message sends nothing. |
| Telegram.ChunksOf5000 | test/telegram.test.js:6-19 | A 5000-character message is sent as 4096 characters, then 904. |
| Telegram.SentPartsCarryMessage | src/core/telegram.js:17-21 | Each part goes to the chat in HTML parse mode, and the part texts together are the message. |
| Telegram.ReplaceFirst | src/core/telegram.js:30 | `replace("_", " ")` with a string pattern changes only the first `_`. |
| Telegram.Upper | src/core/telegram.js:30 | `toUpperCase`, character by character. |
| Telegram.HeaderChars | src/core/telegram.js:30 | A section header keeps the key's length. The first `_` becomes a space, and every other character, later `_` included, is upper-cased. |
| Telegram.HeaderOfObfs4Ipv4 | src/core/telegram.js:30 | `obfs4_ipv4` is headed `OBFS4 IPV4`. |
| Telegram.LineInGroupedText | src/core/telegram.js:27-33 | Every line of every list appears in the grouped message as `<code>line</code>`. |
| Telegram.TitleOnlyMessage | src/core/telegram.js:26-33 | A dictionary whose lists are all empty still sends a message: the title line alone. |
| Telegram.GroupedTextStartsWithTitle | src/core/telegram.js:27 | The grouped message opens with the bold title line. |
| Telegram.TelegramClient.constructor | src/core/telegram.js:10-11 | The client keeps the token and `String(chatId)`, and has made no request. |
| Telegram.TelegramClient.RequestsAreSentParts | src/core/telegram.js:17-21 | Every request goes to the bot's `sendMessage` URL, with the parts as bodies. |
| Telegram.TelegramClient.SendMessage | src/core/telegram.js:12-23 | Appends one request per 4096-character part of the message, in order. |
| Telegram.TelegramClient.SendGrouped | src/core/telegram.js:25-35 | Sends nothing for a missing or key-less dictionary. Otherwise it sends the grouped message through `sendMessage`. |
| Telegram.BuildGroupedText | src/core/telegram.js:27-33 | The `message +=` loops build the grouped message. |
| Telegram.AppendSection | src/core/telegram.js:29-32 | The inner loop appends one key's section, or nothing for an empty list. |
| NodeTelegram.NodeTelegramNotifier.constructor | src/adapters/node-telegram.js:13-16 | Keeps `String(chatId)` and starts with no calls made. |
| NodeTelegram.NodeTelegramNotifier.SendMessage | src/adapters/node-telegram.js:18-28 | Makes one bot call per 4096-character part, in HTML parse mode, in order. |
| NodeTelegram.NodeTelegramNotifier.SendGrouped | src/adapters/node-telegram.js:34-44 | Sends nothing for a missing or key-less dictionary. Otherwise it sends the same grouped message as the fetch-based helper. |
| Base64.ValueOfDigit | src/panel/server-router.js:32-38 | The URL-safe alphabet and its decoding are inverse to each other. |
| Base64.UrlSafeConcat | src/panel/server-router.js:35-37 | The three `replace` calls work character by character. |
| Base64.Base64UrlIsUnpaddedUrl | src/panel/server-router.js:32-38 | `base64url` is the unpadded encoding of section 5 of RFC 4648. |
| Base64.EncodeLength | src/panel/server-router.js:33-35 | Four characters per three bytes: padded to a multiple of four, or cut after the last significant character. |
| Base64.Base64UrlCharacters | src/panel/server-router.js:35-37 | `base64url` never writes `=`, `+`, `/`, or the `.` that separates token parts. |
| Base64.DecodeEncode | src/panel/server-router.js:32-38 | Section 5 decoding undoes the unpadded encoding. |
| Base64.Base64UrlRoundTrip | src/panel/server-router.js:32-38 | Decoding the output of `base64url` gives back the input bytes. |
| Text.SplitThenJoin | src/panel/server-router.js:54 | Joining the parts of `split` with the separator gives back the string. |
| Text.JoinThenSplit | src/server.js:164 | Splitting parts joined with a separator none of them holds gives back the parts. |
| Text.TrimIdempotent | src/core/dedupe.js:33 | Trimming twice is trimming once. |
| Text.NatToStringValue | src/panel/server-router.js:93 | `String(n)` of a whole number reads back as `n`. |
| ServerRouter.SplitToken | src/panel/server-router.js:54-56 | A token of three dot-free parts splits back into those parts. |
| ServerRouter.SignThenVerify | src/panel/server-router.js:40-64 | A token `signJWT` issued verifies, with its claims, while its `exp` has not passed. |
| ServerRouter.ExpiredRefused | src/panel/server-router.js:62 | Once the current second is past `exp`, the same token is refused. |
| ServerRouter.Base64UrlInjective | src/panel/server-router.js:32-38 | Different bytes give different `base64url` text. |
| ServerRouter.ForgedPayloadNeedsSameDigest | src/panel/server-router.js:57-60 | A token with a swapped payload verifies only if the HMAC of the new signed part equals the old digest. |
| ServerRouter.Pairs | src/panel/server-router.js:69-73 | One key-value pair or none per `;` segment. |
| ServerRouter.SegmentPair | src/panel/server-router.js:70-73 | Each segment gives its trimmed key and value around the first `=`, or nothing. |
| ServerRouter.SegmentPairs | src/panel/server-router.js:69-73 | The loop gives the pairs of all segments. |
| ServerRouter.CollectCookies | src/panel/server-router.js:69-76 | The loop gives the cookie object, later pairs last. |
| ServerRouter.ParseCookies | src/panel/server-router.js:66-78 | `parseCookies` returns exactly the `Cookies` of the header. |
| ServerRouter.CookieKeys | src/panel/server-router.js:71-74 | A key is set if and only if some segment with an `=` has it. |
| ServerRouter.LastCookieWins | src/panel/server-router.js:74 | A key holds the decoded value of the last segment with that key. |
| ServerRouter.NoHeaderNoCookies | src/panel/server-router.js:67 | A missing or empty header gives no cookies. |
| ServerRouter.PairOfSegment | src/panel/server-router.js:70-73 | The segment `k=v` gives `(k, v)`. |
| ServerRouter.CookieRoundTrip | src/panel/server-router.js:66-78 | Distinct cookies serialised as `k=v` joined by `;` parse back, each key to its decoded value. |
| ServerRouter.LoginThrottle.constructor | src/panel/server-router.js:9-12 | No failures and no lock. |
| ServerRouter.LoginThrottle.Arrive | src/panel/server-router.js:170-173 | A login request is let through to read its body if and only if no lock is in force when it arrives. |
| ServerRouter.LoginThrottle.Judge | src/panel/server-router.js:174-194 | After the body is read, the state and the answer are exactly as `Judgement` says. A `null` body throws before anything is counted and gets no answer. Otherwise a wrong login answers 401 and counts a failure, the fifth locking, and a right one answers 200 and clears the count. The lock is not checked again. |
| ServerRouter.LockedRefusesAll | src/panel/server-router.js:170-173 | A request that arrives while a lock is in force, right or wrong, is answered 429 and changes nothing. |
| ServerRouter.AttemptsStayBelowLimit | src/panel/server-router.js:174-186 | A judgement keeps the failure count between 0 and 4. It answers 200 if and only if the credentials match, whatever the lock. It gives no answer if and only if the body is `null`, and then changes nothing. |
| ServerRouter.SingleRequestSucceeds | src/panel/server-router.js:170-186 | A request that no other overlaps succeeds if and only if no lock was in force when it arrived and its credentials match. |
| ServerRouter.PendingRequestPassesLock | src/panel/server-router.js:170-186 | Two requests are admitted together. The first is judged as the fifth failure and sets the lock. The second, judged right while that lock is in force, still answers 200. |
| ServerRouter.FailuresCounted | src/panel/server-router.js:178-182 | From no failures, failed judgements are counted one by one, and the fifth locks logins for ten minutes from its time. |
| ServerRouter.NoPasswordNoLogin | src/panel/server-router.js:176-177 | With `ADMIN_PASS` unset or blank, no login can succeed. |
| ServerRouter.GuardRules | src/panel/server-router.js:116-140 | Public URLs pass. Any other request passes if and only if its session verifies and, for a POST, its non-empty `x-csrf` equals the session's `csrf`. A request whose session does not verify is sent to the login page. |
| ServerRouter.SessionCookieRead | src/panel/server-router.js:121-190 | The session cookie the login sets is read back as the token to verify. |
| ServerRouter.SignedSessionPasses | src/panel/server-router.js:116-190 | A POST carrying the cookie of an unexpired token the panel signed, plus its `x-csrf`, passes the guard with the token's claims. |
| ServerRouter.DefaultIsEveryTwelveHours | src/panel/server-router.js:93 | The fallback expression is every twelve hours. |
| ServerRouter.NextRunExpressionOrder | src/panel/server-router.js:93 | A non-blank cron expression is used as given, untrimmed. With no usable cron and an interval that is not positive, `NaN` included, the expression is every twelve hours. |
| ServerRouter.IntervalStep | src/panel/server-router.js:93 | For an interval of at least an hour, the expression's step reads back as the whole hours. |
| ServerRouter.SubHourIntervalStepZero | src/panel/server-router.js:93 | An interval under an hour gives a step of zero. |
| Server.Runner.constructor | src/server.js:77-79 | Not running, with no last run and no last report. |
| Server.Runner.Start | src/server.js:94-95 | Refuses with `busy` while a run is in flight. Otherwise it marks one. |
| Server.Runner.Finish | src/server.js:96-106 | Sets `lastRun` and clears `running` whatever the outcome. Only a report replaces `lastReport`. |
| Server.OverlappingRunRefused | src/server.js:94 | A `triggerRun` during a run answers `busy` and changes nothing. |
| Server.RunSettles | src/server.js:96-106 | After a run, nothing is in flight and `lastRun` is the finishing time. `lastReport` changes exactly when the run succeeded. |
| Server.Recent | src/server.js:84-91 | At most 500 lines. |
| Server.LogsAreRecent | src/server.js:84-91 | The buffer always holds the last 500 lines logged, or all of them when fewer, oldest first. |
| Server.LogBuffer.constructor | src/server.js:85 | An empty buffer. |
| Server.LogBuffer.LogLine | src/server.js:86-91 | Pushes `[time] args` and drops the oldest line beyond 500. The new line is last. |
| Server.SplitLines | src/server.js:155 | `split(/\r?\n/)` gives at least one line. |
| Server.EnvEntryMatches | src/server.js:157 | A line matches with key `k` and value `v` if and only if it is `k=v` for a `[A-Z0-9_]+` key and a one-line value. |
| Server.CurrentUpToValid | src/server.js:156-159 | Each matched key is listed once. |
| Server.LaterLineWins | src/server.js:158 | A key holds the value of its last matching line. |
| Server.OnlyMatchedKeys | src/server.js:156-159 | Exactly the keys of matching lines are read. |
| Server.UnchangedKeyKept | src/server.js:161 | A key no change names keeps its value, or its absence. |
| Server.LastChangeWins | src/server.js:161 | A changed key takes `String` of its last change, with `null` becoming the empty string. |
| Server.ChangedUpToValid | src/server.js:161 | The changes keep every key listed once. |
| Server.AppendNewKeys | src/server.js:163 | The key set keeps `current`'s keys first and in order, then the new listed keys, each once. |
| Server.EnvBodyKeys | src/server.js:162-164 | The written file has one line per key, no key twice, and exactly the keys of `current` and the ten listed settings, with `current`'s keys first. |
| Server.EnvLineMatches | src/server.js:157-164 | A written `K=V` line matches the read pattern. |
| Server.SplitJoinedLines | src/server.js:155-164 | Lines joined by `\n` split back into the same lines. |
| Server.EnvBodyReadsBack | src/server.js:155-164 | The next `updateEnv` reads the written file back as every written key with its written value. |
| Server.ReadEnvValid | src/server.js:153-160 | `current` as read lists every key once. |
| Server.MatchLines | src/server.js:156-157 | The loop matches every line. |
| Server.CollectEnv | src/server.js:156-159 | The loop fills `current` from the matches. |
| Server.ReadCurrent | src/server.js:153-160 | `current` is read from the file, or is `{}` when there is no file. |
| Server.ApplyChanges | src/server.js:161 | The changes are applied in `Object.entries` order. |
| Server.UpdateEnv | src/server.js:151-167 | The text written is the file read, then changed, then written out in key order. |
| Server.ChangedWellFormed | src/server.js:157-161 | Keys stay names and values stay on one line after the changes. |
| Server.ChangeReadsBack | src/server.js:151-167 | A later read of the written file gives each changed key its last change. |
| Server.SchedulesAgree | src/server.js:116-185 | The start-up schedule and the reload schedule agree for every interval but `Infinity`. For a blank cron and an infinite interval, a reload writes `0 */Infinity * * *` while start-up uses twelve hours. |
| Server.CronTrimmedWhenScheduled | src/server.js:121-173 | A non-blank cron expression is scheduled trimmed, while the panel's next-run expression keeps it untrimmed (src/panel/server-router.js:93). |
| Server.ReloadNextRun | src/server.js:171-180 | A disabled scheduler has no next run. An enabled one whose cron starts has the next time of the reloaded schedule. |
| Server.UpperCaseTrueDisables | src/server.js:171 | `DISABLE_INTERNAL_CRON=TRUE` disables as `true` does, and `yes` does not. |

## Left out

- Core.RunOnce: never fails. In the source, a throw from `store.readAll`, `store.append` or the notifier (src/core.js:32,54,71,78,81,86) aborts `runOnce` partway: earlier appends stay done, later calls are never made, and `triggerRun` answers `{status: "error"}` (src/server.js:101-103). In the model, every append and every notice always completes; only `Server.Runner.Finish` sees a failed outcome.
- Telegram.ChunksFrom: counts characters (code points), not UTF-16 units as JavaScript's `length` and `substring` do (src/core/telegram.js:14-15, src/adapters/node-telegram.js:20-21). A text with characters outside the Basic Multilingual Plane, such as the rocket in the "Latest Tor Bridges" title, can be split into one part fewer in the model than in JavaScript. JavaScript can also cut such a character in half.
- Telegram.Chunks and Telegram.ChunksFromCount: the same code-point counting, so their part counts hold for UTF-16 lengths only on text within the Basic Multilingual Plane.
- Telegram.Upper: upper-cases only `a`-`z`. JavaScript's `toUpperCase` maps every Unicode letter and can lengthen a string (`ß` becomes `SS`), so `Telegram.HeaderChars`' length claim holds only for keys without such letters. The four category names have none.
- ServerRouter.Cookies: `decode` stands for `decodeURIComponent` but is total. `decodeURIComponent` throws on a malformed escape such as `%` (src/panel/server-router.js:74), and then `authGuard` throws and no response is written. `ServerRouter.AuthGuard` and `ServerRouter.GuardRules` inherit this.
- Server.OutputKeys: keeps keys in insertion order. A JavaScript object lists integer-like keys such as `123` first, in numeric order, so `Object.keys(current)` (src/server.js:163) can reorder an existing `.env`. `Server.EnvBodyKeys`' claim that `current`'s keys come first in file order holds for files without such keys.
- Server.UpdateEnv: the write of `process.env` (src/server.js:166) is not modelled, nor the file-system calls, which become the `existing` text in and the body out.
- Server.Runner: `triggerRun` is modelled as two steps, `Start` and `Finish`, with `runOnce` awaited between them. Interleavings are captured only as calls to these two steps. The `finally` that clears `running` is part of `Finish`.
- ServerRouter.LoginThrottle.Judge: the success branch's CSRF token (`crypto.randomBytes`) and the signed cookie are not generated. `ServerRouter.SessionCookieRead` and `ServerRouter.SignedSessionPasses` take the token as an argument instead.
- ServerRouter.VerifyJWT: HMAC-SHA256 is the parameter `hmac`. `Buffer.from(p, "base64")` followed by `JSON.parse` is the parameter `parse`, whose `None` stands for a throw. The verdict is then `Threw`, which `ServerRouter.AuthGuard` passes on as a throw.
- Base64.Decode: strict RFC 4648 decoding, used only to prove `base64url` loses nothing. Node's lenient base64 decoding of the payload is not modelled.
- Server.ReloadNextRun: the cron libraries (`node-cron`, `cron-parser`) are the parameters `starts` and `computeNext`. The cron task's later firings and the stop of the previous task are not modelled.
- ServerRouter.IntervalStep: `Math.floor` of a number printed in exponent form (`1e21` and up) is written as plain digits in the model.
- HTTP routing, static files and request bodies (`handle`, `serveFile`, `readBody`, the `/config`, `/secrets`, `/logs`, `/health` and `/run` branches, src/panel/server-router.js:18-30,80-89,142-265) are I/O around the modelled functions and are not modelled.
- `readEnv` and the redaction of `/config` (src/server.js:139-149, src/panel/server-router.js:206-211) only read the environment and are not modelled.
- `fetchHtml` and `httpFetch` (src/server.js:46-72) are network calls. Their results are the `Fetched` pages given to `Core.RunOnce`.
- The JSON file store `NodeFileStore` is not part of this model. `Core.Store` stands for its `readAll` and `append`, with each category's records as a sequence.
- Console output, the `logLine` console copy, the one-second `delayMs` timing (only the call is recorded) and the server's listening banner (src/server.js:207-225) are not modelled.
- Keys named `__proto__` in cookies or in `.env`, which JavaScript objects treat specially, are treated as ordinary keys.
