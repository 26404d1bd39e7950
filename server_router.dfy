/**
 * The self-contained logic of the panel router, src/panel/server-router.js: the session token
 * (`signJWT`/`verifyJWT`, with HMAC-SHA256 as a parameter), the `Cookie` header parser, the login
 * throttle, the rules of `authGuard`, and the cron expression `computeNextRun` schedules.
 */
module ServerRouter {
  import opened Wrappers
  import opened Text
  import opened Base64

  // ---------------------------------------------------------------------------
  // Session tokens

  /** The claims `verifyJWT` reads from the decoded payload: `exp` when it is a number, and
      `csrf` when it is a string. */
  datatype Claims = Claims(exp: Option<int>, csrf: Option<string>)

  /** What `verifyJWT` does: return the payload, return `null`, or throw (when `JSON.parse`
      throws on the decoded payload). */
  datatype Verdict = Verified(claims: Claims) | Refused | Threw

  /** `signJWT`: the encoded header and payload, then the URL-safe signature of both. `hmac`
      gives the HMAC-SHA256 digest under the panel's secret; `header` and `payload` are the
      bytes of the JSON texts. */
  function SignJWT(header: seq<byte>, payload: seq<byte>, hmac: string -> seq<byte>): string {
    var toSign := Base64Url(header) + "." + Base64Url(payload);
    toSign + "." + Base64Url(hmac(toSign))
  }

  /** `verifyJWT(token, secret)` at time `nowMs`: three `.`-separated parts whose third is the
      signature of the first two, and a payload whose `exp` is a number not before the current
      second. `parse` decodes and parses a payload part, or gives nothing where that throws. */
  function VerifyJWT(token: string, hmac: string -> seq<byte>, parse: string -> Option<Claims>, nowMs: nat): Verdict {
    if |token| == 0 then Refused
    else
      var parts := Split(token, '.');
      if |parts| != 3 then Refused
      else if Base64Url(hmac(parts[0] + "." + parts[1])) != parts[2] then Refused
      else match parse(parts[1])
        case None => Threw
        case Some(claims) =>
          if claims.exp.None? || claims.exp.value < nowMs / 1000 then Refused else Verified(claims)
  }

  /** The three parts of a token, none holding a `.`, written with `.` between them. */
  lemma SplitToken(h: string, p: string, s: string)
    requires '.' !in h && '.' !in p && '.' !in s
    ensures Split(h + "." + p + "." + s, '.') == [h, p, s]
  {
    assert Join([h, p, s], ".") == h + "." + p + "." + s by {
      assert Join([p, s], ".") == p + "." + s;
    }
    JoinThenSplit([h, p, s], '.');
  }

  /** A token `signJWT` issued verifies, with its claims, as long as they parse and have not
      expired. */
  lemma SignThenVerify(header: seq<byte>, payload: seq<byte>, hmac: string -> seq<byte>,
                       parse: string -> Option<Claims>, nowMs: nat, claims: Claims)
    requires parse(Base64Url(payload)) == Some(claims)
    requires claims.exp.Some? && claims.exp.value >= nowMs / 1000
    ensures VerifyJWT(SignJWT(header, payload, hmac), hmac, parse, nowMs) == Verified(claims)
  {
    var h, p := Base64Url(header), Base64Url(payload);
    var s := Base64Url(hmac(h + "." + p));
    Base64UrlCharacters(header);
    Base64UrlCharacters(payload);
    Base64UrlCharacters(hmac(h + "." + p));
    SplitToken(h, p, s);
  }

  /** Once the current second is past `exp`, the same token is refused. */
  lemma ExpiredRefused(header: seq<byte>, payload: seq<byte>, hmac: string -> seq<byte>,
                       parse: string -> Option<Claims>, nowMs: nat, claims: Claims)
    requires parse(Base64Url(payload)) == Some(claims)
    requires claims.exp.Some? && claims.exp.value < nowMs / 1000
    ensures VerifyJWT(SignJWT(header, payload, hmac), hmac, parse, nowMs) == Refused
  {
    var h, p := Base64Url(header), Base64Url(payload);
    Base64UrlCharacters(header);
    Base64UrlCharacters(payload);
    Base64UrlCharacters(hmac(h + "." + p));
    SplitToken(h, p, Base64Url(hmac(h + "." + p)));
  }

  /** `base64url` loses nothing: different bytes give different text. */
  lemma Base64UrlInjective(a: seq<byte>, b: seq<byte>)
    requires Base64Url(a) == Base64Url(b)
    ensures a == b
  {
    Base64UrlRoundTrip(a);
    Base64UrlRoundTrip(b);
  }

  /** Putting another payload under the signature of a token verifies only when the HMAC gives
      the new header and payload the very digest of the old ones. */
  lemma ForgedPayloadNeedsSameDigest(header: seq<byte>, payload: seq<byte>, other: seq<byte>, hmac: string -> seq<byte>,
                                     parse: string -> Option<Claims>, nowMs: nat)
    requires var h := Base64Url(header);
      VerifyJWT(h + "." + Base64Url(other) + "." + Base64Url(hmac(h + "." + Base64Url(payload))), hmac, parse, nowMs).Verified?
    ensures var h := Base64Url(header);
      hmac(h + "." + Base64Url(other)) == hmac(h + "." + Base64Url(payload))
  {
    var h, p, q := Base64Url(header), Base64Url(payload), Base64Url(other);
    Base64UrlCharacters(header);
    Base64UrlCharacters(other);
    Base64UrlCharacters(hmac(h + "." + p));
    SplitToken(h, q, Base64Url(hmac(h + "." + p)));
    Base64UrlInjective(hmac(h + "." + q), hmac(h + "." + p));
  }

  // ---------------------------------------------------------------------------
  // Cookies

  /** One `;`-separated segment of a `Cookie` header: the trimmed text before its first `=` and
      the trimmed text after it, or nothing when it has no `=`. */
  function CookiePair(segment: string): Option<(string, string)> {
    var idx := IndexOf(segment, '=');
    if idx == |segment| then None else Some((Trim(segment[..idx]), Trim(segment[idx + 1..])))
  }

  /** The pair of each segment. */
  function Pairs(segments: seq<string>): (pairs: seq<Option<(string, string)>>)
    ensures |pairs| == |segments|
  {
    seq(|segments|, i requires 0 <= i < |segments| => CookiePair(segments[i]))
  }

  /** The cookies of the first `n` segments' pairs, each value decoded by `decode`
      (`decodeURIComponent`), a later pair overwriting an earlier one with the same key. */
  function CookiesUpTo(pairs: seq<Option<(string, string)>>, decode: string -> string, n: nat): map<string, string>
    requires n <= |pairs|
  {
    if n == 0 then map[]
    else
      var m := CookiesUpTo(pairs, decode, n - 1);
      if pairs[n - 1].None? then m else m[pairs[n - 1].value.0 := decode(pairs[n - 1].value.1)]
  }

  /** What `parseCookies` gives for a request whose `Cookie` header is `header`. */
  function Cookies(header: Option<string>, decode: string -> string): map<string, string> {
    var pairs := Pairs(Split(header.GetOr(""), ';'));
    CookiesUpTo(pairs, decode, |pairs|)
  }

  /** The key and value `parseCookies` takes from one segment, if it has an `=`. */
  method SegmentPair(v: string) returns (pair: Option<(string, string)>)
    ensures pair == CookiePair(v)
  {
    var idx := IndexOf(v, '=');
    if idx == |v| {
      return None;
    }
    var k := Trim(v[..idx]);
    var val := Trim(v[idx + 1..]);
    return Some((k, val));
  }

  /** The pairs of the segments, one at a time. */
  method SegmentPairs(segments: seq<string>) returns (pairs: seq<Option<(string, string)>>)
    ensures pairs == Pairs(segments)
  {
    pairs := [];
    for i := 0 to |segments|
      invariant |pairs| == i
      invariant forall j :: 0 <= j < i ==> pairs[j] == CookiePair(segments[j])
    {
      var pair := SegmentPair(segments[i]);
      pairs := pairs + [pair];
    }
  }

  /** The cookies of the pairs, later ones last. */
  method CollectCookies(pairs: seq<Option<(string, string)>>, decode: string -> string) returns (out: map<string, string>)
    ensures out == CookiesUpTo(pairs, decode, |pairs|)
  {
    out := map[];
    for i := 0 to |pairs|
      invariant out == CookiesUpTo(pairs, decode, i)
    {
      if pairs[i].Some? {
        out := out[pairs[i].value.0 := decode(pairs[i].value.1)];
      }
    }
  }

  /** `parseCookies(req)`: every segment with an `=` sets its key, later ones last. */
  method ParseCookies(header: Option<string>, decode: string -> string) returns (out: map<string, string>)
    ensures out == Cookies(header, decode)
  {
    var pairs := SegmentPairs(Split(header.GetOr(""), ';'));
    out := CollectCookies(pairs, decode);
  }

  /** A key is set exactly when some pair has it. */
  lemma {:induction false} CookieKeys(pairs: seq<Option<(string, string)>>, decode: string -> string, n: nat, k: string)
    requires n <= |pairs|
    ensures k in CookiesUpTo(pairs, decode, n) <==> exists i :: 0 <= i < n && pairs[i].Some? && pairs[i].value.0 == k
  {
    if n > 0 {
      CookieKeys(pairs, decode, n - 1, k);
    }
  }

  /** A key's value is the decoded value of the last pair that has the key. */
  lemma {:induction false} LastCookieWins(pairs: seq<Option<(string, string)>>, decode: string -> string, n: nat, i: nat, k: string, v: string)
    requires i < n <= |pairs| && pairs[i] == Some((k, v))
    requires forall j :: i < j < n ==> pairs[j].None? || pairs[j].value.0 != k
    ensures k in CookiesUpTo(pairs, decode, n) && CookiesUpTo(pairs, decode, n)[k] == decode(v)
  {
    if n > i + 1 {
      LastCookieWins(pairs, decode, n - 1, i, k, v);
    }
  }

  /** A missing or empty header gives no cookies. */
  lemma NoHeaderNoCookies(header: Option<string>, decode: string -> string)
    requires header.None? || header.value == ""
    ensures Cookies(header, decode) == map[]
  {
    assert header.GetOr("") == "";
    assert Split("", ';') == [""];
  }

  /** A segment `k=v` with `k` free of `=` and both free of outer whitespace gives `(k, v)`. */
  lemma PairOfSegment(k: string, v: string)
    requires '=' !in k && Trim(k) == k && Trim(v) == v
    ensures CookiePair(k + "=" + v) == Some((k, v))
  {
    var s := k + "=" + v;
    IndexAfter(k, v, '=');
    assert s[..|k|] == k && s[|k| + 1..] == v;
  }

  /** A segment built from text without `;` has none. */
  lemma NoSemicolon(k: string, v: string)
    requires ';' !in k && ';' !in v
    ensures ';' !in k + "=" + v
  {
    var s := k + "=" + v;
    forall j | 0 <= j < |s| ensures s[j] != ';' {
      if j < |k| { assert s[j] == k[j]; } else if j > |k| { assert s[j] == v[j - |k| - 1]; }
    }
  }

  /** Serialising cookies as `k=v` segments joined by `;` and parsing them back gives each key
      its decoded value, when keys hold neither `=` nor `;`, values hold no `;`, neither has
      outer whitespace and no key repeats. */
  lemma CookieRoundTrip(segments: seq<string>, keys: seq<string>, values: seq<string>, decode: string -> string, i: nat)
    requires |keys| == |values| == |segments| && i < |keys|
    requires forall j :: 0 <= j < |keys| ==> segments[j] == keys[j] + "=" + values[j]
    requires forall j :: 0 <= j < |keys| ==>
      '=' !in keys[j] && ';' !in keys[j] && ';' !in values[j] && Trim(keys[j]) == keys[j] && Trim(values[j]) == values[j]
    requires forall j, l :: 0 <= j < l < |keys| ==> keys[j] != keys[l]
    ensures var cookies := Cookies(Some(Join(segments, ";")), decode);
      keys[i] in cookies && cookies[keys[i]] == decode(values[i])
  {
    var pairs := Pairs(segments);
    forall j | 0 <= j < |keys| ensures ';' !in segments[j] && pairs[j] == Some((keys[j], values[j])) {
      PairOfSegment(keys[j], values[j]);
      NoSemicolon(keys[j], values[j]);
    }
    JoinThenSplit(segments, ';');
    LastCookieWins(pairs, decode, |segments|, i, keys[i], values[i]);
  }

  // ---------------------------------------------------------------------------
  // The login throttle

  /** Failed logins allowed before the lock. */
  const MaxAttempts: int := 5

  /** How long the lock lasts: ten minutes, in milliseconds. */
  const LockMs: int := 10 * 60 * 1000

  /** `loginState`. */
  datatype LoginState = LoginState(attempts: int, lockedUntil: int)

  /** What the request body parses to, as far as the login reads it: `null`, on which reading
      `body.username` throws, or a value whose `username` and `password` are strings or not
      (any other JSON value, and a body that is empty or not JSON, reads as `{}`). */
  datatype LoginBody = NullBody | Fields(username: Option<string>, password: Option<string>)

  /** The answer to a login request: a status, or none because the handler threw. */
  datatype Reply = Status(code: int) | NoReply

  /** `process.env.X || fallback`: an unset or empty variable gives the fallback. */
  function EnvOr(v: Option<string>, fallback: string): string {
    if v.Some? && |v.value| > 0 then v.value else fallback
  }

  /** The body names the configured user, `ADMIN_USER` or `admin`, and its password
      `ADMIN_PASS`, both trimmed; empty fields never match. */
  predicate CredentialsMatch(body: LoginBody, adminUser: Option<string>, adminPass: Option<string>) {
    var user, pass := Trim(EnvOr(adminUser, "admin")), Trim(EnvOr(adminPass, ""));
    body.Fields? && body.username.Some? && |body.username.value| > 0
    && body.password.Some? && |body.password.value| > 0
    && body.username.value == user && body.password.value == pass
  }

  /** The check made as the request arrives at time `now`, before its body is read: it goes on
      only when no lock is in force. */
  predicate Admitted(st: LoginState, now: int) {
    st.lockedUntil <= now
  }

  /** The counting of one judged request at time `now`: a failure adds one, and the fifth
      locks for ten minutes from `now` and starts counting again; a success clears the count. */
  function Counted(st: LoginState, now: int, ok: bool): (LoginState, int) {
    if !ok then
      if st.attempts + 1 >= MaxAttempts then (LoginState(0, now + LockMs), 401)
      else (LoginState(st.attempts + 1, st.lockedUntil), 401)
    else (LoginState(0, st.lockedUntil), 200)
  }

  /** The judgement made once the body has been read, at time `now`. It does not look at the
      lock again; a `null` body throws before anything is counted. */
  function Judgement(st: LoginState, now: int, body: LoginBody, adminUser: Option<string>, adminPass: Option<string>)
    : (LoginState, Reply)
  {
    if body.NullBody? then (st, NoReply)
    else
      var (st', code) := Counted(st, now, CredentialsMatch(body, adminUser, adminPass));
      (st', Status(code))
  }

  /** One `POST /auth/login` that no other login request overlaps: it arrives at `arrive`, and
      its body has been read by `judged`. */
  function LoginStep(st: LoginState, arrive: int, judged: int, body: LoginBody,
                     adminUser: Option<string>, adminPass: Option<string>): (LoginState, Reply)
  {
    if !Admitted(st, arrive) then (st, Status(429)) else Judgement(st, judged, body, adminUser, adminPass)
  }

  /** The module-level `loginState` of the router. Each login request calls `Arrive` when it
      comes in and, if admitted, `Judge` after its body has been read; other requests may run
      in between. */
  class LoginThrottle {
    var attempts: int
    var lockedUntil: int

    /** The state a fresh process starts with. */
    constructor()
      ensures attempts == 0 && lockedUntil == 0
    {
      attempts := 0;
      lockedUntil := 0;
    }

    function State(): LoginState
      reads this
    {
      LoginState(attempts, lockedUntil)
    }

    /** The lock check at the head of the `/auth/login` branch, at time `now`: `admitted` is
        false when the request is answered 429. */
    method Arrive(now: int) returns (admitted: bool)
      ensures admitted <==> Admitted(State(), now)
    {
      if lockedUntil > now {
        return false;
      }
      return true;
    }

    /** The rest of the branch, after `await readBody(req)`, at time `now`. */
    method Judge(now: int, body: LoginBody, adminUser: Option<string>, adminPass: Option<string>) returns (reply: Reply)
      modifies this
      ensures (State(), reply) == Judgement(old(State()), now, body, adminUser, adminPass)
    {
      if body.NullBody? {
        return NoReply;
      }
      var user, pass := Trim(EnvOr(adminUser, "admin")), Trim(EnvOr(adminPass, ""));
      if body.username.None? || |body.username.value| == 0 || body.password.None? || |body.password.value| == 0
        || body.username.value != user || body.password.value != pass
      {
        attempts := attempts + 1;
        if attempts >= MaxAttempts {
          lockedUntil := now + LockMs;
          attempts := 0;
        }
        return Status(401);
      }
      attempts := 0;
      return Status(200);
    }
  }

  /** A request that arrives while a lock is in force, right or wrong, is answered 429 and
      changes nothing. */
  lemma LockedRefusesAll(st: LoginState, arrive: int, judged: int, body: LoginBody,
                         adminUser: Option<string>, adminPass: Option<string>)
    requires st.lockedUntil > arrive
    ensures LoginStep(st, arrive, judged, body, adminUser, adminPass) == (st, Status(429))
  {
  }

  /** A judgement keeps the failure count between 0 and 4 (the fifth failure resets it as it
      locks); it answers 200 exactly when the credentials match, whatever the lock, throws
      exactly on a `null` body and then changes nothing. */
  lemma AttemptsStayBelowLimit(st: LoginState, now: int, body: LoginBody,
                               adminUser: Option<string>, adminPass: Option<string>)
    requires 0 <= st.attempts < MaxAttempts
    ensures var (st', reply) := Judgement(st, now, body, adminUser, adminPass);
      && 0 <= st'.attempts < MaxAttempts
      && (reply == Status(200) <==> CredentialsMatch(body, adminUser, adminPass))
      && (reply == NoReply <==> body.NullBody?)
      && (reply == NoReply ==> st' == st)
  {
  }

  /** A request no other overlaps succeeds if and only if no lock was in force when it arrived
      and its credentials match. */
  lemma SingleRequestSucceeds(st: LoginState, arrive: int, judged: int, body: LoginBody,
                              adminUser: Option<string>, adminPass: Option<string>)
    ensures LoginStep(st, arrive, judged, body, adminUser, adminPass).1 == Status(200)
      <==> st.lockedUntil <= arrive && CredentialsMatch(body, adminUser, adminPass)
  {
  }

  /** The lock only stops requests that arrive after it: two requests admitted together, the
      first judged wrong as the fifth failure, the second judged right while the lock the first
      set is in force, which the second still passes. */
  lemma PendingRequestPassesLock(adminPass: string)
    requires |adminPass| > 0 && Trim(adminPass) == adminPass
    ensures var st := LoginState(MaxAttempts - 1, 0);
      var good, bad := Fields(Some("admin"), Some(adminPass)), Fields(Some("admin"), None);
      Admitted(st, 1)
      && var (locked, r1) := Judgement(st, 2, bad, None, Some(adminPass));
      r1 == Status(401) && locked.lockedUntil > 3
      && Judgement(locked, 3, good, None, Some(adminPass)).1 == Status(200)
  {
    var good := Fields(Some("admin"), Some(adminPass));
    TrimOfTrimmed("admin");
    assert CredentialsMatch(good, None, Some(adminPass));
  }

  /** One judged request at a time, with whether its credentials match. */
  datatype Try = Try(now: int, ok: bool)

  /** The state after a series of judgements. */
  function Replay(st: LoginState, tries: seq<Try>): LoginState
    decreases |tries|
  {
    if |tries| == 0 then st
    else Counted(Replay(st, tries[..|tries| - 1]), tries[|tries| - 1].now, tries[|tries| - 1].ok).0
  }

  /** From no failures, failed judgements are counted one by one, and the fifth locks logins
      for ten minutes from its time. */
  lemma {:induction false} FailuresCounted(st: LoginState, tries: seq<Try>)
    requires st.attempts == 0 && |tries| <= MaxAttempts
    requires forall i :: 0 <= i < |tries| ==> !tries[i].ok
    ensures |tries| < MaxAttempts ==> Replay(st, tries) == LoginState(|tries|, st.lockedUntil)
    ensures |tries| == MaxAttempts ==> Replay(st, tries) == LoginState(0, tries[MaxAttempts - 1].now + LockMs)
    decreases |tries|
  {
    if |tries| > 0 {
      FailuresCounted(st, tries[..|tries| - 1]);
    }
  }

  /** With `ADMIN_PASS` unset or blank, no login can succeed. */
  lemma NoPasswordNoLogin(body: LoginBody, adminUser: Option<string>, adminPass: Option<string>)
    requires Trim(EnvOr(adminPass, "")) == ""
    ensures !CredentialsMatch(body, adminUser, adminPass)
  {
  }

  // ---------------------------------------------------------------------------
  // The guard

  /** The parts of a request `authGuard` reads. */
  datatype Request = Request(url: string, verb: string, cookie: Option<string>, csrfHeader: Option<string>)

  /** What `authGuard` does: let the request through (with the session's claims when it read
      them), redirect to the login page (302), refuse it for its CSRF header (403), or throw. */
  datatype Guard = Pass(claims: Option<Claims>) | RedirectToLogin | CsrfInvalid | GuardThrew

  predicate StartsWith(s: string, prefix: string) {
    |prefix| <= |s| && s[..|prefix|] == prefix
  }

  /** The URLs served without a session. */
  predicate IsPublic(url: string) {
    StartsWith(url, "/panel/login") || url == "/auth/login" || url == "/auth/logout" || url == "/health"
  }

  /** The name of the session cookie. */
  const SessionCookie: string := "atb_session"

  /** `cookies["atb_session"] || ""`. */
  function SessionToken(cookies: map<string, string>): string {
    if SessionCookie in cookies then cookies[SessionCookie] else ""
  }

  /** `authGuard(req, res)`, the session being checked by `verify` (`verifyJWT` with the
      panel's secret at the current time). */
  function AuthGuard(req: Request, decode: string -> string, verify: string -> Verdict): Guard {
    if IsPublic(req.url) then Pass(None)
    else
      match verify(SessionToken(Cookies(req.cookie, decode)))
      case Threw => GuardThrew
      case Refused => RedirectToLogin
      case Verified(claims) =>
        if req.verb == "POST" then
          var csrf := req.csrfHeader.GetOr("");
          if |csrf| == 0 || claims.csrf != Some(csrf) then CsrfInvalid else Pass(Some(claims))
        else Pass(Some(claims))
  }

  /** Off the public URLs, a request passes exactly when its session verifies and, for a POST,
      its non-empty `x-csrf` header equals the session's `csrf`; an unverified session is sent
      to the login page. */
  lemma GuardRules(req: Request, decode: string -> string, verify: string -> Verdict)
    ensures IsPublic(req.url) ==> AuthGuard(req, decode, verify) == Pass(None)
    ensures !IsPublic(req.url) ==>
      var v := verify(SessionToken(Cookies(req.cookie, decode)));
      (AuthGuard(req, decode, verify).Pass? <==>
        v.Verified? && (req.verb == "POST" ==>
          |req.csrfHeader.GetOr("")| > 0 && v.claims.csrf == Some(req.csrfHeader.GetOr(""))))
      && (AuthGuard(req, decode, verify) == RedirectToLogin <==> v.Refused?)
  {
  }

  /** The session cookie a login sets comes back as the token: a `Cookie` header holding only
      `atb_session=<encoded token>` gives the token to verify. */
  lemma SessionCookieRead(encoded: string, decode: string -> string)
    requires ';' !in encoded && Trim(encoded) == encoded
    ensures SessionToken(Cookies(Some(SessionCookie + "=" + encoded), decode)) == decode(encoded)
  {
    assert '=' !in SessionCookie && ';' !in SessionCookie;
    TrimOfTrimmed(SessionCookie);
    var segment := SessionCookie + "=" + encoded;
    assert Join([segment], ";") == segment;
    CookieRoundTrip([segment], [SessionCookie], [encoded], decode, 0);
  }

  /** A POST carrying the cookie of a token the panel signed, still valid, and the `x-csrf` the
      login returned, passes the guard with the token's claims. */
  lemma SignedSessionPasses(url: string, encoded: string, decode: string -> string,
                            header: seq<byte>, payload: seq<byte>, hmac: string -> seq<byte>,
                            parse: string -> Option<Claims>, nowMs: nat, claims: Claims, csrf: string)
    requires !IsPublic(url) && ';' !in encoded && Trim(encoded) == encoded
    requires decode(encoded) == SignJWT(header, payload, hmac)
    requires parse(Base64Url(payload)) == Some(claims) && claims.exp.Some? && claims.exp.value >= nowMs / 1000
    requires |csrf| > 0 && claims.csrf == Some(csrf)
    ensures AuthGuard(Request(url, "POST", Some(SessionCookie + "=" + encoded), Some(csrf)), decode,
                      token => VerifyJWT(token, hmac, parse, nowMs)) == Pass(Some(claims))
  {
    SessionCookieRead(encoded, decode);
    SignThenVerify(header, payload, hmac, parse, nowMs, claims);
  }

  // ---------------------------------------------------------------------------
  // The schedule expression

  /** The cron expression that runs every `n` hours on the hour. */
  function EveryHours(n: int): string {
    "0 */" + IntToString(n) + " * * *"
  }

  /** The expression used when neither a cron expression nor an interval is set. */
  const DefaultSchedule: string := "0 */12 * * *"

  /** The default is every twelve hours. */
  lemma DefaultIsEveryTwelveHours()
    ensures DefaultSchedule == EveryHours(12)
  {
    assert IntToString(12) == "12";
  }

  /** A JavaScript number: `Number(x)` of a setting is one of these. */
  datatype Number = Finite(value: real) | NaN | Infinity | NegativeInfinity

  /** `n > 0`, which is false for `NaN`. */
  predicate IsPositive(n: Number) {
    (n.Finite? && n.value > 0.0) || n.Infinity?
  }

  /** The expression every `Math.floor(n)` hours, for a positive number;
      `Math.floor(Infinity)` prints as `Infinity`. */
  function EveryStep(n: Number): string
    requires IsPositive(n)
  {
    if n.Finite? then EveryHours(n.value.Floor) else "0 */Infinity * * *"
  }

  /** The expression `computeNextRun` schedules: the cron expression as given when it is not
      blank, else every `floor(h)` hours for a positive interval, else every twelve hours.
      `hours` is `Number(intervalHours)`, which is not positive for every falsy
      `intervalHours`. */
  function NextRunExpression(cron: Option<string>, hours: Number): string {
    if cron.Some? && |Trim(cron.value)| > 0 then cron.value
    else if IsPositive(hours) then EveryStep(hours)
    else DefaultSchedule
  }

  /** The order of the choice: a non-blank cron expression is kept as given, untrimmed;
      otherwise a non-positive interval (or `NaN`) gives the default. */
  lemma NextRunExpressionOrder(cron: Option<string>, hours: Number)
    ensures cron.Some? && |Trim(cron.value)| > 0 ==> NextRunExpression(cron, hours) == cron.value
    ensures (cron.None? || |Trim(cron.value)| == 0) && !IsPositive(hours) ==>
      NextRunExpression(cron, hours) == EveryHours(12)
  {
    DefaultIsEveryTwelveHours();
  }

  /** For an interval of at least one hour, the step of the expression reads back as the whole
      hours of the interval. */
  lemma IntervalStep(cron: Option<string>, h: real)
    requires cron.None? || |Trim(cron.value)| == 0
    requires h >= 1.0
    ensures var step := NatToString(h.Floor);
      NextRunExpression(cron, Finite(h)) == "0 */" + step + " * * *"
      && AllDigits(step) && DigitsValue(step) == h.Floor
  {
    NatToStringValue(h.Floor);
  }

  /** An interval under one hour gives a step of zero. */
  lemma SubHourIntervalStepZero(cron: Option<string>, h: real)
    requires cron.None? || |Trim(cron.value)| == 0
    requires 0.0 < h < 1.0
    ensures NextRunExpression(cron, Finite(h)) == "0 */0 * * *"
  {
    assert h.Floor == 0;
    assert NatToString(0) == "0";
  }
}
