/** The proxy's rewrite on requests in the absolute form (section 5.3.2 of RFC 7230): the method
    keeps its place, the scheme and the host leave the first line, everything else stays. */
module OriginForm {
  import opened Splitting
  import opened HttpProxy

  const HOST_HEADER := "Host: "

  /** The first line "M scheme://H P", where P is the path and the protocol version. */
  function AbsoluteLine(m: string, scheme: string, host: string, p: string): string {
    m + SPACE + scheme + SCHEME_END + (host + p)
  }

  /** A request with this first line and a Host header on the second line. */
  function Request(line: string, host: string, rest: string): string {
    line + (CRLF + (HOST_HEADER + host) + CRLF + rest)
  }

  /** The scheme is the one for which the fixed offsets of trimURLProtocol are right. */
  predicate SchemeFits(m: string, scheme: string, tail: string) {
    || |scheme| == |m| + 1
    || (|scheme| > |m| + 1 && scheme[..|scheme| - |m| - 1] <= tail)
  }

  lemma CrlfAndSpaceAreBorderless()
    ensures Borderless(CRLF) && Borderless(SPACE)
  {
    assert forall k: nat :: 0 < k < 2 ==> CRLF[..k][0] != CRLF[2 - k..][0];
  }

  lemma FreeOfSpace(s: string)
    requires ' ' !in s
    ensures Free(s, SPACE)
  {
    forall i: nat
      ensures !OccursAt(s, SPACE, i)
    {
      if i < |s| { assert s[i] in s; }
    }
  }

  lemma HostLineFree(host: string)
    requires Free(host, CRLF)
    ensures Free(HOST_HEADER + host, CRLF)
  {
    var line := HOST_HEADER + host;
    forall i: nat
      ensures !OccursAt(line, CRLF, i)
    {
      if 6 <= i {
        assert line[6..] == host;
        Shift(line, CRLF, 6, i - 6);
      } else if i + 2 <= |line| {
        assert line[i..i + 2][0] == HOST_HEADER[i];
      }
    }
  }

  /** The two lines that parseRequest reads. */
  lemma LinesOfRequest(line: string, host: string, rest: string)
    requires Free(line, CRLF) && Free(host, CRLF)
    ensures var request := Request(line, host, rest);
            && First(request, CRLF) == |line| < |request|
            && |Split(request, CRLF)| > 1
            && Split(request, CRLF)[0] == line && Split(request, CRLF)[1] == HOST_HEADER + host
  {
    CrlfAndSpaceAreBorderless();
    HostLineFree(host);
    var second := HOST_HEADER + host;
    var request := Request(line, host, rest);
    hide Free, Borderless, Split, First;
    assert request == line + CRLF + (second + CRLF + rest);
    FirstSeparator(line, CRLF, second + CRLF + rest);
    SplitHead(line, CRLF, second + CRLF + rest);
    FirstSeparator(second, CRLF, rest);
    SplitHead(second, CRLF, rest);
  }

  /** The host is the second word of the header line. */
  lemma HostIsSecondWord(host: string)
    requires ' ' !in host
    ensures First(HOST_HEADER + host, SPACE) < |HOST_HEADER + host|
    ensures Split(HOST_HEADER + host, SPACE) == ["Host:", host]
  {
    CrlfAndSpaceAreBorderless();
    FreeOfSpace("Host:");
    FreeOfSpace(host);
    hide Free, Borderless, Split, First;
    assert HOST_HEADER + host == "Host:" + SPACE + host;
    FirstSeparator("Host:", SPACE, host);
    SplitHead("Host:", SPACE, host);
    SplitFree(host, SPACE);
  }

  lemma FirstSpace(m: string, scheme: string, tail: string)
    requires ' ' !in m
    ensures First(m + SPACE + scheme + SCHEME_END + tail, SPACE) == |m|
  {
    CrlfAndSpaceAreBorderless();
    FreeOfSpace(m);
    hide Free, Borderless, First;
    assert m + SPACE + scheme + SCHEME_END + tail == m + SPACE + (scheme + SCHEME_END + tail);
    FirstSeparator(m, SPACE, scheme + SCHEME_END + tail);
  }

  /** What trimming and removing the host make of the first line. */
  lemma NewLineIsOrigin(m: string, scheme: string, host: string, p: string)
    requires ' ' !in m && host != [] && SchemeFits(m, scheme, host + p)
    requires SchemeAt(AbsoluteLine(m, scheme, host, p)) == |m| + 1 + |scheme|
    requires |scheme| + (|scheme| + 3) <= |AbsoluteLine(m, scheme, host, p)|
    requires ' ' !in host
    ensures First(AbsoluteLine(m, scheme, host, p), SPACE) == |m| < |AbsoluteLine(m, scheme, host, p)|
    ensures Trimmable(AbsoluteLine(m, scheme, host, p), |m| + 1)
    ensures NewFirstLine(AbsoluteLine(m, scheme, host, p), host) == m + SPACE + p <==> HostOnce(m, host, p)
  {
    hide First, SchemeAt, RemoveSkipping, HostOnce;
    FirstSpace(m, scheme, host + p);
    TrimDropsSchemeIff(m, scheme, host + p);
    RemovedOnceIff(m, ' ', host, p);
    assert HostOnce(m, host, p) <==> Free(m, host) && (p == [] || Free(p[1..], host)) by {
      HostOnceIs(m, host, p);
    }
  }

  /** The method does not hold the host, and neither does what follows the host, but for the first
      character, which the removal skips. */
  ghost predicate HostOnce(m: string, host: string, p: string) {
    Free(m, host) && (p == [] || Free(p[1..], host))
  }

  lemma HostOnceIs(m: string, host: string, p: string)
    ensures HostOnce(m, host, p) <==> Free(m, host) && (p == [] || Free(p[1..], host))
  {
  }

  lemma RewriteFromParts(request: string, line: string, second: string, host: string)
    requires First(request, CRLF) < |request| && |Split(request, CRLF)| > 1
    requires Split(request, CRLF)[0] == line && Split(request, CRLF)[1] == second
    requires line != [] && First(line, SPACE) < |line| && Trimmable(line, First(line, SPACE) + 1)
    requires First(second, SPACE) < |second| && Split(second, SPACE) == ["Host:", host]
    requires Spaced(request, line)
    ensures Parsable(request) && HostOf(request) == host
    ensures Rewritten(request) == ReplaceAll(request, line, NewFirstLine(line, host))
  {
    hide First, Split, Trimmable, Spaced, ReplaceAll, NewFirstLine;
  }

  lemma RequestAround(line: string, host: string, rest: string)
    ensures Request(line, host, rest) == [] + line + AfterLine(host, rest)
    ensures Request(line, host, rest) == line + AfterLine(host, rest)
  {
  }

  /** What follows the first line. */
  function AfterLine(host: string, rest: string): string {
    CRLF + (HOST_HEADER + host) + CRLF + rest
  }

  /** Absolute form to origin form, for every method, scheme, host, path and remainder: the rewrite
      comes out right if and only if the first line holds the host once. */
  lemma AbsoluteToOrigin(m: string, scheme: string, host: string, p: string, rest: string)
    requires ' ' !in m && ' ' !in host && host != []
    requires Free(AbsoluteLine(m, scheme, host, p), CRLF) && Free(host, CRLF)
    requires SchemeAt(AbsoluteLine(m, scheme, host, p)) == |m| + 1 + |scheme|
    requires SchemeFits(m, scheme, host + p)
    requires OccursOnce([], AbsoluteLine(m, scheme, host, p), AfterLine(host, rest))
    ensures Parsable(Request(AbsoluteLine(m, scheme, host, p), host, rest))
    ensures HostOf(Request(AbsoluteLine(m, scheme, host, p), host, rest)) == host
    ensures (Rewritten(Request(AbsoluteLine(m, scheme, host, p), host, rest))
             == Request(m + SPACE + p, host, rest)) <==> HostOnce(m, host, p)
  {
    var line := AbsoluteLine(m, scheme, host, p);
    assert line != [] && |scheme| + (|scheme| + 3) <= |line|;
    hide *;
    LinesOfRequest(line, host, rest);
    HostIsSecondWord(host);
    NewLineIsOrigin(m, scheme, host, p);
    var newLine := NewFirstLine(line, host);
    RequestAround(line, host, rest);
    RequestAround(newLine, host, rest);
    RequestAround(m + SPACE + p, host, rest);
    ReplaceOnce([], line, AfterLine(host, rest), newLine);
    RewriteFromParts(Request(line, host, rest), line, HOST_HEADER + host, host);
    SameTail(newLine, m + SPACE + p, AfterLine(host, rest));
  }

  lemma SameTail(x: string, y: string, z: string)
    ensures x + z == y + z <==> x == y
    ensures [] + x + z == x + z
  {
    if x + z == y + z {
      assert (x + z)[..|x|] == x && (y + z)[..|y|] == y;
    }
  }

  /** A query that names the host again loses it: the request does not come out right. */
  lemma RepeatedHostIsMangled(m: string, host: string, before: string, after: string)
    ensures !HostOnce(m, host, "/" + before + host + after)
  {
    var p := "/" + before + host + after;
    assert p[1..] == before + host + after;
    OccursBetween(before, host, after);
  }

  /** The smallest everyday request that the fixed offsets get wrong: "POST http://...". */
  lemma PostIsMangled(tail: string)
    ensures SchemeAt("POST http://" + tail) == 9 && Trimmable("POST http://" + tail, 5)
    ensures Trimmed("POST http://" + tail, 5) != "POST " + tail
  {
    SeparatorIsFirst(tail);
    assert "POST" + SPACE + "http" + SCHEME_END + tail == "POST http://" + tail;
    assert "POST" + SPACE + tail == "POST " + tail;
    TrimDropsSchemeIff("POST", "http", tail);
  }

  lemma SeparatorIsFirst(tail: string)
    ensures First("POST http://" + tail, SCHEME_END) == 9
  {
    var head := "POST http";
    assert Borderless(SCHEME_END) by {
      assert forall k: nat :: 0 < k < 3 ==> SCHEME_END[..k][0] != SCHEME_END[3 - k..][0];
    }
    assert Free(head, SCHEME_END) by {
      forall i: nat
        ensures !OccursAt(head, SCHEME_END, i)
      {
        if i + 3 <= |head| { assert head[i..i + 3][0] != ':'; }
      }
    }
    FirstSeparator(head, SCHEME_END, tail);
    assert head + SCHEME_END + tail == "POST http://" + tail;
  }
}
