/**
 * Worked instances of the classifier: the two lines of test/parse.test.js, a
 * bracketed host without a colon, and a dotted host whose groups are not
 * valid octets. Each example is stated over the line's literal text; the
 * lines are shown to be in canonical form (`Parse.Render`) and the general
 * results about canonical lines do the rest.
 */
module ParseExamples {
  import opened Text
  import opened Bridges
  import opened BridgePatterns
  import opened Parse

  /** The fingerprint the tests use. Long literals are written in pieces of at most 28
      characters here, a length the verifier can look into character by character. */
  const TestFingerprint: string := "ABCDEF0123456789ABCD" + "EF0123456789ABCDEF01"

  /** The line of the test "parse obfs4 ipv4". */
  const Obfs4TestLine: string := "obfs4 1.2.3.4:443 " + TestFingerprint + " cert=abc iat-mode=0"

  /** The line of the test "parse webtunnel ipv6". */
  const WebtunnelTestLine: string := "webtunnel [2001:db8::1]:443 " + TestFingerprint + " url=https://x.test ver=1"

  /** An obfs4 line whose bracketed host holds no colon. */
  const ColonFreeBracketsLine: string := "obfs4 [ABCD]:443 " + TestFingerprint + " cert=abc iat-mode=0"

  /** An obfs4 line whose dotted host has groups above 255. */
  const LargeGroupsLine: string := "obfs4 999.999.999.999:1 " + TestFingerprint + " cert=abc iat-mode=0"

  // ---------------------------------------------------------------------------
  // The tests

  /** "parse obfs4 ipv4": the first test's line is accepted as `obfs4_ipv4`, with ip `1.2.3.4`
      and port `443`. */
  lemma Obfs4TestLineClassified(addedAt: string)
    ensures var r := ParseAndClassifyBridge(Obfs4TestLine, addedAt);
      r.Some? && r.value.cat == Category(Obfs4, false) && r.value.cat.Name() == "obfs4_ipv4" && r.value.data.ip == "1.2.3.4" && r.value.data.port == "443"
  {
    Obfs4TestLineParts();
    DottedHostText();
    Obfs4TestLineRendered();
    Classifies(Obfs4TestLine, Obfs4, "1.2.3.4", "443", TestFingerprint, "abc", "0", "1.2.3.4", addedAt);
    CategoryNames();
  }

  /** "parse webtunnel ipv6": the second test's line is accepted as `webtunnel_ipv6`, with ip
      `2001:db8::1`. */
  lemma WebtunnelTestLineClassified(addedAt: string)
    ensures var r := ParseAndClassifyBridge(WebtunnelTestLine, addedAt);
      r.Some? && r.value.cat == Category(Webtunnel, true) && r.value.cat.Name() == "webtunnel_ipv6" && r.value.data.ip == "2001:db8::1"
  {
    WebtunnelTestLineParts();
    BracketedHostText();
    WebtunnelTestLineRendered();
    Classifies(WebtunnelTestLine, Webtunnel, "[2001:db8::1]", "443", TestFingerprint, "https://x.test", "1", "2001:db8::1", addedAt);
    CategoryNames();
  }

  // ---------------------------------------------------------------------------
  // Two lines the tests do not cover

  /** A bracketed host without a colon, `[ABCD]`, loses its brackets and is `obfs4_ipv4`. */
  lemma BracketedWithoutColonIsIPv4(addedAt: string)
    ensures var r := ParseAndClassifyBridge(ColonFreeBracketsLine, addedAt);
      r.Some? && r.value.cat == Category(Obfs4, false) && r.value.cat.Name() == "obfs4_ipv4" && r.value.data.ip == "ABCD"
  {
    ColonFreeBracketsLineParts();
    ColonFreeBracketedHostText();
    ColonFreeBracketsLineRendered();
    Classifies(ColonFreeBracketsLine, Obfs4, "[ABCD]", "443", TestFingerprint, "abc", "0", "ABCD", addedAt);
    CategoryNames();
  }

  /** Dotted groups are not range-checked: `999.999.999.999` is accepted as an `obfs4_ipv4`
      host. */
  lemma OctetsAreNotRangeChecked(addedAt: string)
    ensures var r := ParseAndClassifyBridge(LargeGroupsLine, addedAt);
      r.Some? && r.value.cat == Category(Obfs4, false) && r.value.cat.Name() == "obfs4_ipv4" && r.value.data.ip == "999.999.999.999"
  {
    LargeGroupsLineParts();
    LargeGroupsHostText();
    LargeGroupsLineRendered();
    Classifies(LargeGroupsLine, Obfs4, "999.999.999.999", "1", TestFingerprint, "abc", "0", "999.999.999.999", addedAt);
    CategoryNames();
  }

  // ---------------------------------------------------------------------------
  // The parts of the lines

  /** `1.2.3.4` is four dotted groups. */
  lemma DottedHost()
    ensures HostAt("1.2.3.4", 0, 7)
  {
    var host := "1.2.3.4";
    assert GroupAt(host, 6, 7, 7, 1);
    assert GroupAt(host, 4, 5, 7, 2);
    assert GroupAt(host, 2, 3, 7, 3);
    assert GroupAt(host, 0, 1, 7, 4);
  }

  /** `1.2.3.4` keeps its text and holds no colon. */
  lemma DottedHostText()
    ensures RemoveBrackets("1.2.3.4") == "1.2.3.4" && !IsIPv6("1.2.3.4")
  {
    DottedHost();
    Parse.DottedHostText("1.2.3.4", 0, 7);
    assert "1.2.3.4"[0..7] == "1.2.3.4";
  }

  /** `[2001:db8::1]` is a bracketed host. */
  lemma BracketedHost()
    ensures HostAt("[2001:db8::1]", 0, 13)
  {
    assert BracketedAt("[2001:db8::1]", 0, 13);
  }

  /** Without its brackets, `[2001:db8::1]` is `2001:db8::1`, which holds a colon. */
  lemma BracketedHostText()
    ensures RemoveBrackets("[2001:db8::1]") == "2001:db8::1" && IsIPv6("2001:db8::1")
  {
    var addr := "2001:db8::1";
    assert "[2001:db8::1]" == ['['] + addr + [']'];
    RemoveBracketsOfBracketed(addr);
    assert addr == "2001" + ":" + "db8::1";
  }

  /** `[ABCD]` is a bracketed host. */
  lemma ColonFreeBracketedHost()
    ensures HostAt("[ABCD]", 0, 6)
  {
    assert BracketedAt("[ABCD]", 0, 6);
  }

  /** Without its brackets, `[ABCD]` is `ABCD`, which holds no colon. */
  lemma ColonFreeBracketedHostText()
    ensures RemoveBrackets("[ABCD]") == "ABCD" && !IsIPv6("ABCD")
  {
    var addr := "ABCD";
    assert "[ABCD]" == ['['] + addr + [']'];
    RemoveBracketsOfBracketed(addr);
  }

  /** `999.999.999.999` is four dotted groups. */
  lemma LargeGroupsHost()
    ensures HostAt("999.999.999.999", 0, 15)
  {
    var host := "999.999.999.999";
    assert GroupAt(host, 12, 15, 15, 1);
    assert GroupAt(host, 8, 11, 15, 2);
    assert GroupAt(host, 4, 7, 15, 3);
    assert GroupAt(host, 0, 3, 15, 4);
  }

  /** `999.999.999.999` keeps its text and holds no colon. */
  lemma LargeGroupsHostText()
    ensures RemoveBrackets("999.999.999.999") == "999.999.999.999" && !IsIPv6("999.999.999.999")
  {
    LargeGroupsHost();
    Parse.DottedHostText("999.999.999.999", 0, 15);
    assert "999.999.999.999"[0..15] == "999.999.999.999";
  }

  /** The parts of `Obfs4TestLine` are ones the pattern accepts. */
  lemma Obfs4TestLineParts()
    ensures Renderable(Obfs4, "1.2.3.4", "443", TestFingerprint, "abc", "0")
  {
    DottedHost();
    FingerprintIsHex();
    CertIsToken();
  }

  /** The parts of `WebtunnelTestLine` are ones the pattern accepts. */
  lemma WebtunnelTestLineParts()
    ensures Renderable(Webtunnel, "[2001:db8::1]", "443", TestFingerprint, "https://x.test", "1")
  {
    BracketedHost();
    FingerprintIsHex();
    assert IsToken("https://x.test");
  }

  /** The parts of `ColonFreeBracketsLine` are ones the pattern accepts. */
  lemma ColonFreeBracketsLineParts()
    ensures Renderable(Obfs4, "[ABCD]", "443", TestFingerprint, "abc", "0")
  {
    ColonFreeBracketedHost();
    FingerprintIsHex();
    CertIsToken();
  }

  /** The parts of `LargeGroupsLine` are ones the pattern accepts. */
  lemma LargeGroupsLineParts()
    ensures Renderable(Obfs4, "999.999.999.999", "1", TestFingerprint, "abc", "0")
  {
    LargeGroupsHost();
    FingerprintIsHex();
    CertIsToken();
  }

  /** The names the tests expect for the categories of their lines. */
  lemma CategoryNames()
    ensures Category(Obfs4, false).Name() == "obfs4_ipv4"
    ensures Category(Webtunnel, true).Name() == "webtunnel_ipv6"
  {
    assert Category(Obfs4, false).Name() == "obfs4" + "_ipv4";
    assert Category(Webtunnel, true).Name() == "webtunnel" + "_ipv6";
  }

  /** The tests' fingerprint is 40 upper-case hex digits. */
  lemma FingerprintIsHex()
    ensures |TestFingerprint| == 40 && forall i :: 0 <= i < 40 ==> InClass(TestFingerprint[i], UpperHex)
  {
  }

  /** The tests' `cert` value `abc` is a single token. */
  lemma CertIsToken()
    ensures IsToken("abc")
  {
    var cert := "abc";
    assert cert[0] == 'a' && cert[1] == 'b' && cert[2] == 'c';
    assert !IsSpace('a') && !IsSpace('b') && !IsSpace('c');
  }

  /** A line in canonical form whose parts the pattern accepts is classified by its transport
      and by whether its host, brackets removed, holds a colon. */
  lemma Classifies(line: string, t: Transport, host: string, port: string, fp: string, v1: string, v2: string,
                   ip: string, addedAt: string)
    requires Renderable(t, host, port, fp, v1, v2) && Render(t, host, port, fp, v1, v2) == line
    requires RemoveBrackets(host) == ip
    ensures var r := ParseAndClassifyBridge(line, addedAt);
      r.Some? && r.value.cat == Category(t, IsIPv6(ip)) && r.value.data.ip == ip && r.value.data.port == port
  {
    ParseRender(t, host, port, fp, v1, v2, addedAt);
  }

  // ---------------------------------------------------------------------------
  // The lines in canonical form

  /** The first test's line is an obfs4 line in canonical form. */
  lemma Obfs4TestLineRendered()
    ensures Render(Obfs4, "1.2.3.4", "443", TestFingerprint, "abc", "0") == Obfs4TestLine
  {
    RenderAround(Obfs4, "1.2.3.4", "443", TestFingerprint, "abc", "0");
    Obfs4TestLineSpelled();
  }

  /** `Obfs4TestLine` spelled out part by part. */
  lemma Obfs4TestLineSpelled()
    ensures Obfs4TestLine == ("obfs4" + (" " + ("1.2.3.4" + (":" + ("443" + " "))))) + TestFingerprint + (" " + ("cert=" + ("abc" + (" " + ("iat-mode=" + "0")))))
  {
    assert "obfs4" + (" " + ("1.2.3.4" + (":" + ("443" + " ")))) == "obfs4 1.2.3.4:443 ";
    assert " " + ("cert=" + ("abc" + (" " + ("iat-mode=" + "0")))) == " cert=abc iat-mode=0";
  }

  /** The second test's line is a webtunnel line in canonical form. */
  lemma WebtunnelTestLineRendered()
    ensures Render(Webtunnel, "[2001:db8::1]", "443", TestFingerprint, "https://x.test", "1") == WebtunnelTestLine
  {
    RenderAround(Webtunnel, "[2001:db8::1]", "443", TestFingerprint, "https://x.test", "1");
    WebtunnelTestLineSpelled();
  }

  /** `WebtunnelTestLine` spelled out part by part. */
  lemma WebtunnelTestLineSpelled()
    ensures WebtunnelTestLine == ("webtunnel" + (" " + ("[2001:db8::1]" + (":" + ("443" + " "))))) + TestFingerprint + (" " + ("url=" + ("https://x.test" + (" " + ("ver=" + "1")))))
  {
    assert "webtunnel" + (" " + ("[2001:db8::1]" + (":" + ("443" + " ")))) == "webtunnel [2001:db8::1]:443 ";
    assert " " + ("url=" + ("https://x.test" + (" " + ("ver=" + "1")))) == " url=https://x.test ver=1";
  }

  /** The colon-free bracketed line is an obfs4 line in canonical form. */
  lemma ColonFreeBracketsLineRendered()
    ensures Render(Obfs4, "[ABCD]", "443", TestFingerprint, "abc", "0") == ColonFreeBracketsLine
  {
    RenderAround(Obfs4, "[ABCD]", "443", TestFingerprint, "abc", "0");
    ColonFreeBracketsLineSpelled();
  }

  /** `ColonFreeBracketsLine` spelled out part by part. */
  lemma ColonFreeBracketsLineSpelled()
    ensures ColonFreeBracketsLine == ("obfs4" + (" " + ("[ABCD]" + (":" + ("443" + " "))))) + TestFingerprint + (" " + ("cert=" + ("abc" + (" " + ("iat-mode=" + "0")))))
  {
    assert "obfs4" + (" " + ("[ABCD]" + (":" + ("443" + " ")))) == "obfs4 [ABCD]:443 ";
    assert " " + ("cert=" + ("abc" + (" " + ("iat-mode=" + "0")))) == " cert=abc iat-mode=0";
  }

  /** The large-groups line is an obfs4 line in canonical form. */
  lemma LargeGroupsLineRendered()
    ensures Render(Obfs4, "999.999.999.999", "1", TestFingerprint, "abc", "0") == LargeGroupsLine
  {
    RenderAround(Obfs4, "999.999.999.999", "1", TestFingerprint, "abc", "0");
    LargeGroupsLineSpelled();
  }

  /** `LargeGroupsLine` spelled out part by part. */
  lemma LargeGroupsLineSpelled()
    ensures LargeGroupsLine == ("obfs4" + (" " + ("999.999.999.999" + (":" + ("1" + " "))))) + TestFingerprint + (" " + ("cert=" + ("abc" + (" " + ("iat-mode=" + "0")))))
  {
    assert "obfs4" + (" " + ("999.999.999.999" + (":" + ("1" + " ")))) == "obfs4 999.999.999.999:1 ";
    assert " " + ("cert=" + ("abc" + (" " + ("iat-mode=" + "0")))) == " cert=abc iat-mode=0";
  }

  /** A line in canonical form is the text before the fingerprint, the fingerprint, and the
      text after it, each spelled out. */
  lemma RenderAround(t: Transport, host: string, port: string, fp: string, v1: string, v2: string)
    ensures Render(t, host, port, fp, v1, v2)
      == (t.Token() + (" " + (host + (":" + (port + " "))))) + fp
         + (" " + (PatternOf(t).key1 + (v1 + (" " + (PatternOf(t).key2 + v2)))))
  {
    var parts := RenderParts(t, host, port, fp, v1, v2);
    var front, back := parts[..6], parts[7..];
    assert parts == front + [fp] + back;
    ConcatAppend(front + [fp], back);
    ConcatAppend(front, [fp]);
    ConcatOne(fp);
    ConcatSix(front);
    ConcatSix(back);
  }

  /** Joining six parts. */
  lemma ConcatSix(p: seq<string>)
    requires |p| == 6
    ensures Concat(p) == p[0] + (p[1] + (p[2] + (p[3] + (p[4] + p[5]))))
  {
    ConcatOne(p[5]);
    assert p[5..] == [p[5]];
    ConcatCons(p[4], p[5..]);
    assert p[4..] == [p[4]] + p[5..];
    ConcatCons(p[3], p[4..]);
    assert p[3..] == [p[3]] + p[4..];
    ConcatCons(p[2], p[3..]);
    assert p[2..] == [p[2]] + p[3..];
    ConcatCons(p[1], p[2..]);
    assert p[1..] == [p[1]] + p[2..];
    ConcatCons(p[0], p[1..]);
    assert p == [p[0]] + p[1..];
  }

  /** Joining two runs of parts. */
  lemma {:induction false} ConcatAppend(a: seq<string>, b: seq<string>)
    ensures Concat(a + b) == Concat(a) + Concat(b)
  {
    if a == [] {
      assert a + b == b;
    } else {
      assert (a + b)[0] == a[0] && (a + b)[1..] == a[1..] + b;
      ConcatAppend(a[1..], b);
    }
  }

  /** Joining a single part. */
  lemma ConcatOne(a: string)
    ensures Concat([a]) == a
  {
    assert [a][1..] == [];
    assert a + [] == a;
  }

  /** Joining a part in front of others. */
  lemma ConcatCons(a: string, rest: seq<string>)
    ensures Concat([a] + rest) == a + Concat(rest)
  {
    assert ([a] + rest)[1..] == rest;
  }
}
