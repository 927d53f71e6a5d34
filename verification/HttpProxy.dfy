/** The proxy's request rewriter (Examples/HTTP-proxy/main.c:51-102). */
module HttpProxy {
  import opened CMemory
  import opened RefCounting
  import opened Splitting
  import opened Locations
  import opened Strings
  import opened StringSplitting
  import opened StringReplacing
  import opened StringRemoving

  const SPACE := " "
  const CRLF := "\r\n"
  const SCHEME_END := "://"

  /** Where the first "://" begins, or the length of the line. */
  function SchemeAt(line: string): nat {
    First(line, SCHEME_END)
  }

  /** The range that trimURLProtocol removes stays inside the line. */
  ghost predicate Trimmable(line: string, offset: nat) {
    var p := SchemeAt(line);
    p < |line| && offset <= p && (p - offset) + (p - offset + 3) <= |line|
  }

  /** The line without the range that Examples/HTTP-proxy/main.c:55-56 computes. */
  function Trimmed(line: string, offset: nat): string
    requires Trimmable(line, offset)
  {
    var k := SchemeAt(line) - offset;
    line[..k] + line[k + (k + 3)..]
  }

  lemma {:induction false} FirstByCounting<T>(s: seq<T>, t: seq<T>, i: nat)
    requires t != [] && i <= |s|
    ensures OccurrencesBefore(s, t, i) == 0 <==> forall j: nat :: j < i ==> !OccursAt(s, t, j)
  {
    if i > 0 { FirstByCounting(s, t, i - 1); }
  }

  lemma FirstIsZeroth<T>(s: seq<T>, t: seq<T>, i: nat)
    requires t != [] && i < |s| && OccursAt(s, t, i) && OccurrencesBefore(s, t, i) == 0
    ensures First(s, t) == i
  {
    FirstByCounting(s, t, i);
  }

  lemma SomewhereCounts<T>(s: seq<T>, t: seq<T>)
    requires t != [] && First(s, t) < |s|
    ensures OccurrencesBefore(s, t, |s|) > 0
  {
    FirstByCounting(s, t, |s|);
  }

  /** Examples/HTTP-proxy/main.c:54-57 */
  method TrimURLProtocol(h: Heap, s: SXString, offset: nat)
    requires s.Valid() && s.Blocks() <= h.live && Trimmable(s.Text(), offset)
    modifies h, s`chars, s`length, s.chars
    ensures s.Valid() && s.Text() == Trimmed(old(s.Text()), offset)
    ensures fresh(s.chars) && h.live == old(h.live) - {old(s.chars)} + {s.chars}
  {
    hide *;
    SchemeEndText();
    TextLength(s);
    TrimRange(s.Text(), offset);
    SchemeIsFirst(s.Text());
    SomewhereCounts(s.Text(), SCHEME_END);
    var loca := SubStringLocation(h, s, "://\0", 3, 0);
    FirstIsZeroth(s.Text(), SCHEME_END, loca);
    RemovingRange(h, s, loca - offset, loca - offset + 3);
  }

  lemma SchemeIsFirst(line: string)
    ensures SchemeAt(line) == First(line, SCHEME_END)
  {
  }

  lemma SchemeEndText()
    ensures "://\0"[..3] == SCHEME_END && NUL !in SCHEME_END && SCHEME_END != []
  {
  }

  lemma TrimRange(line: string, offset: nat)
    requires Trimmable(line, offset)
    ensures SchemeAt(line) < |line|
    ensures var k := SchemeAt(line) - offset;
            && 0 <= k && k + (k + 3) <= |line|
            && Trimmed(line, offset) == line[..k] + line[k + (k + 3)..]
  {
    hide SchemeAt;
  }

  /** The fixed offset arithmetic drops the scheme of "M S://R" exactly when the scheme is one
      character longer than the method, or longer than that by characters with which R begins. */
  lemma TrimDropsSchemeIff(m: string, scheme: string, r: string)
    requires SchemeAt(m + SPACE + scheme + SCHEME_END + r) == |m| + 1 + |scheme|
    requires Trimmable(m + SPACE + scheme + SCHEME_END + r, |m| + 1)
    ensures Trimmed(m + SPACE + scheme + SCHEME_END + r, |m| + 1) == m + SPACE + r <==>
            || |scheme| == |m| + 1
            || (|scheme| > |m| + 1 && scheme[..|scheme| - |m| - 1] <= r)
  {
    if |scheme| < |m| + 1 {
      ShortScheme(m, scheme, r);
    } else {
      LongScheme(m, scheme, r);
    }
  }

  /** A range of `a` + 3 characters starting at `a`, cut out of "M S://R". */
  function CutAt(m: string, scheme: string, r: string): string
    requires |scheme| + (|scheme| + 3) <= |m + SPACE + scheme + SCHEME_END + r|
  {
    var line := m + SPACE + scheme + SCHEME_END + r;
    line[..|scheme|] + line[|scheme| + (|scheme| + 3)..]
  }

  lemma ShortScheme(m: string, scheme: string, r: string)
    requires |scheme| < |m| + 1
    ensures CutAt(m, scheme, r) != m + SPACE + r
  {
    var line := m + SPACE + scheme + SCHEME_END + r;
    var cut, want := CutAt(m, scheme, r), m + SPACE + r;
    assert cut[|m|] == line[|m| + |scheme| + 3] == '/';
    assert want[|m|] == ' ';
  }

  lemma LongScheme(m: string, scheme: string, r: string)
    requires |scheme| >= |m| + 1 && |scheme| + (|scheme| + 3) <= |m + SPACE + scheme + SCHEME_END + r|
    ensures CutAt(m, scheme, r) == m + SPACE + r <==> scheme[..|scheme| - |m| - 1] <= r
  {
    var d := |scheme| - |m| - 1;
    var head, extra := m + SPACE, scheme[..d];
    var line := m + SPACE + scheme + SCHEME_END + r;
    assert line[..|scheme|] == head + extra;
    assert line[|scheme| + (|scheme| + 3)..] == r[d..];
    assert CutAt(m, scheme, r) == head + (extra + r[d..]);
    SameHead(head, extra + r[d..], r);
    if extra <= r {
      assert extra + r[d..] == r;
    } else {
      assert (extra + r[d..])[..d] == extra;
    }
  }

  lemma SameHead(x: string, y: string, z: string)
    ensures x + y == x + z <==> y == z
  {
    assert (x + y)[|x|..] == y && (x + z)[|x|..] == z;
  }

  // ---- the whole rewrite, on texts ----

  /** What the first line becomes. */
  function NewFirstLine(line: string, host: string): string
    requires First(line, SPACE) < |line| && Trimmable(line, First(line, SPACE) + 1)
  {
    RemoveSkipping(Trimmed(line, First(line, SPACE) + 1), host)
  }

  /** The request has the parts that parseRequest reads without checking. */
  ghost predicate Parsable(request: string) {
    && First(request, CRLF) < |request|
    && |Split(request, CRLF)| > 1
    && var line := Split(request, CRLF)[0];
    && First(line, SPACE) < |line| && Trimmable(line, First(line, SPACE) + 1)
    && var second := Split(request, CRLF)[1];
    && First(second, SPACE) < |second| && |Split(second, SPACE)| > 1
    && Spaced(request, line)
  }

  function HostOf(request: string): string
    requires Parsable(request)
  {
    Split(Split(request, CRLF)[1], SPACE)[1]
  }

  function Rewritten(request: string): string
    requires Parsable(request)
  {
    var line := Split(request, CRLF)[0];
    ReplaceAll(request, line, NewFirstLine(line, HostOf(request)))
  }

  lemma SeparatorsNeverOverlap(s: string)
    ensures Spaced(s, CRLF) && Spaced(s, SPACE) && Spaced(s, SCHEME_END)
  {
    assert forall k: nat :: 0 < k < 2 ==> CRLF[..k][0] != CRLF[2 - k..][0];
    assert forall k: nat :: 0 < k < 3 ==> SCHEME_END[..k][0] != SCHEME_END[3 - k..][0];
    BorderlessIsSpaced(s, CRLF);
    BorderlessIsSpaced(s, SPACE);
    BorderlessIsSpaced(s, SCHEME_END);
  }

  lemma FoundSomewhere(s: string, t: string)
    requires t != []
    ensures !IsLocations([], s, t) <==> First(s, t) < |s|
  {
    if First(s, t) < |s| { assert First(s, t) !in []; }
  }

  lemma FirstLocation(ps: seq<int>, s: string, t: string)
    requires t != [] && IsLocations(ps, s, t) && |ps| > 0
    ensures ps[0] == First(s, t)
  {
    var k := First(s, t);
    assert OccursAt(s, t, ps[0]);
    assert k <= ps[0];
    assert k in ps;
  }

  // ---- the whole rewrite, on heap strings ----

  /** Examples/HTTP-proxy/main.c:84-93: reads the host from the second line and removes it from
      the first. */
  method RemoveHost(h: Heap, firstline: SXString, secline: SXString) returns (domain: SXString)
    requires firstline.Valid() && secline.Valid() && firstline.chars != secline.chars
    requires firstline.Blocks() + secline.Blocks() <= h.live
    requires First(secline.Text(), SPACE) < |secline.Text()| && |Split(secline.Text(), SPACE)| > 1
    modifies h, firstline`chars, firstline`length, firstline.chars
    ensures fresh(domain) && fresh(domain.chars) && domain.refCount == 1
    ensures domain.Valid() && domain.Text() == Split(old(secline.Text()), SPACE)[1]
    ensures firstline.Valid() && (firstline.chars == old(firstline.chars) || fresh(firstline.chars))
    ensures firstline.Text() == RemoveSkipping(old(firstline.Text()), domain.Text())
    ensures h.live == old(h.live) - {old(firstline.chars)} + {firstline.chars} + domain.Blocks()
    ensures firstline.chars !in domain.Blocks()
  {
    hide *;
    ghost var second := secline.Text();
    SpaceText();
    FoundSomewhere(second, SPACE);
    SeparatorsNeverOverlap(second);
    var words := SubStringsTrimmedByCString(h, secline, " \0", 1);
    OwnBlocks(firstline);
    CarriesAt(words.items, Split(second, SPACE), 1);
    domain := RemoveWord(h, firstline, words, Split(second, SPACE));
    OwnBlocks(domain);
    OutsideBlocks(words.items, domain);
    DropAll(h, words);
  }

  /** Examples/HTTP-proxy/main.c:87-91: the host is copied and removed while its vector is held. */
  method RemoveWord(h: Heap, firstline: SXString, words: SXVector<SXString>, ghost texts: seq<string>)
    returns (domain: SXString)
    requires Carries(words.items, texts) && |texts| > 1 && firstline.Valid()
    requires firstline.Blocks() + words.Blocks() + StringBlocks(words.items) <= h.live
    requires firstline.Blocks() !! StringBlocks(words.items)
    modifies h, firstline`chars, firstline`length, firstline.chars
    ensures fresh(domain) && fresh(domain.chars) && domain.refCount == 1
    ensures domain.Valid() && domain.Text() == texts[1]
    ensures firstline.Valid() && (firstline.chars == old(firstline.chars) || fresh(firstline.chars))
    ensures firstline.Text() == RemoveSkipping(old(firstline.Text()), texts[1])
    ensures old(h.live) !! domain.Blocks() && firstline.chars !in domain.Blocks()
    ensures h.live == old(h.live) - {old(firstline.chars)} + {firstline.chars} + domain.Blocks()
  {
    hide *;
    CarriesAt(words.items, texts, 1);
    var hostname := words.ObjectAt(h, 1);
    InBlocks(words.items, 1);
    OwnBlocks(hostname);
    OwnBlocks(firstline);
    domain := CopyOf(h, hostname);
    OwnBlocks(domain);
    RemoveText(h, firstline, hostname);
  }

  method CopyOf(h: Heap, s: SXString) returns (copy: SXString)
    requires s.Valid() && s.Blocks() <= h.live
    modifies h
    ensures fresh(copy) && fresh(copy.chars) && copy.refCount == 1
    ensures copy.Valid() && copy.Text() == s.Text()
    ensures h.live == old(h.live) + copy.Blocks() && old(h.live) !! copy.Blocks()
  {
    TerminatedText(s);
    copy := new SXString.FromCString(h, h.Bytes(s.chars), s.length);
  }

  method RemoveText(h: Heap, s: SXString, remove: SXString)
    requires s.Valid() && remove.Valid() && remove.chars != s.chars
    requires s.Blocks() + remove.Blocks() <= h.live
    modifies h, s`chars, s`length, s.chars
    ensures s.Valid() && s.Text() == RemoveSkipping(old(s.Text()), remove.Text())
    ensures s.chars == old(s.chars) || fresh(s.chars)
    ensures h.live == old(h.live) - {old(s.chars)} + {s.chars}
  {
    hide *;
    TerminatedText(remove);
    RemoveOccurrenceOfCString(h, s, h.Bytes(remove.chars), remove.length, {remove.chars});
  }

  lemma TerminatedText(s: SXString)
    requires s.Valid()
    ensures s.length < |s.chars[..]| && s.chars[..][..s.length] == s.Text() && s.chars[..][s.length] == NUL
    ensures s.chars in s.Blocks()
    ensures NUL !in s.Text() && NUL in s.chars[..] && StrNLen(s.chars[..], s.length) == s.length
  {
    StrNLenIs(s.chars[..], s.length, s.length);
  }

  /** Examples/HTTP-proxy/main.c:78-95 */
  method RewriteFirstLine(h: Heap, firstline: SXString, secline: SXString) returns (domain: SXString)
    requires firstline.Valid() && secline.Valid()
    requires firstline != secline && firstline.chars != secline.chars
    requires firstline.Blocks() + secline.Blocks() <= h.live
    requires First(firstline.Text(), SPACE) < |firstline.Text()|
    requires Trimmable(firstline.Text(), First(firstline.Text(), SPACE) + 1)
    requires First(secline.Text(), SPACE) < |secline.Text()| && |Split(secline.Text(), SPACE)| > 1
    modifies h, firstline`chars, firstline`length, firstline.chars
    ensures fresh(domain) && fresh(domain.chars) && domain.refCount == 1
    ensures domain.Valid() && domain.Text() == Split(old(secline.Text()), SPACE)[1]
    ensures firstline.Valid() && fresh(firstline.chars)
    ensures firstline.Text() == NewFirstLine(old(firstline.Text()), domain.Text())
    ensures h.live == old(h.live) - {old(firstline.chars)} + {firstline.chars} + domain.Blocks()
    ensures firstline.chars !in domain.Blocks()
  {
    hide *;
    ghost var line := firstline.Text();
    OwnBlocks(firstline);
    OwnBlocks(secline);
    SpaceText();
    FoundSomewhere(line, SPACE);
    var spaces := SubCStringLocations(h, firstline, " \0", 1);
    FirstLocation(spaces.items, line, SPACE);
    var loca := spaces.ObjectAt(h, 0);
    TrimURLProtocol(h, firstline, loca + 1);
    OwnBlocks(firstline);
    OwnBlocks(secline);
    domain := RemoveHost(h, firstline, secline);
    FreesLast();
    VectorBlocks(spaces);
    OwnBlocks(domain);
    ReleaseLocations(h, spaces);
    NewFirstLineIs(line, domain.Text());
  }

  lemma VectorBlocks<T>(v: SXVector<T>)
    ensures v.Blocks() == {v, v.block}
  {
  }

  lemma SpaceText()
    ensures " \0"[..1] == SPACE && " \0"[1] == NUL && NUL !in SPACE && SPACE != []
  {
  }

  lemma NewFirstLineIs(line: string, host: string)
    requires First(line, SPACE) < |line| && Trimmable(line, First(line, SPACE) + 1)
    ensures NewFirstLine(line, host) == RemoveSkipping(Trimmed(line, First(line, SPACE) + 1), host)
  {
  }

  lemma CarriesAt(items: seq<SXString>, texts: seq<string>, k: nat)
    requires Carries(items, texts) && k < |texts|
    ensures |items| == |texts| && items[k].Valid() && items[k].Text() == texts[k] && Apart(items)
  {
  }

  /** Gives back a vector of strings whose every reference is the only one. */
  method DropAll(h: Heap, v: SXVector<SXString>)
    requires Apart(v.items) && v.refCount == 1
    requires forall k :: 0 <= k < |v.items| ==> v.items[k].refCount == 1
    requires v.Blocks() + StringBlocks(v.items) <= h.live && v.Blocks() !! StringBlocks(v.items)
    modifies h, v, v.items
    ensures h.live == old(h.live) - old(v.Blocks()) - old(StringBlocks(v.items))
  {
    DroppedWithin(v.items);
    ReleaseStrings(h, v);
  }

  lemma PartsOfRequest(request: string)
    requires Parsable(request)
    ensures !IsLocations([], request, CRLF) && Spaced(request, CRLF)
    ensures |Split(request, CRLF)| > 1
    ensures var line := Split(request, CRLF)[0];
            && line != [] && First(line, SPACE) < |line| && Trimmable(line, First(line, SPACE) + 1)
            && !IsLocations([], request, line) && Spaced(request, line)
            && Rewritten(request) == ReplaceAll(request, line, NewFirstLine(line, HostOf(request)))
    ensures var second := Split(request, CRLF)[1];
            && First(second, SPACE) < |second| && |Split(second, SPACE)| > 1
            && HostOf(request) == Split(second, SPACE)[1]
  {
    var line := Split(request, CRLF)[0];
    FoundSomewhere(request, CRLF);
    SeparatorsNeverOverlap(request);
    assert OccursAt(request, line, 0);
    assert 0 !in [];
  }

  lemma CrlfText()
    ensures "\r\n\0"[..2] == CRLF && "\r\n\0"[2] == NUL && NUL !in CRLF && CRLF != []
  {
  }

  lemma {:induction false} BlocksOfHead(items: seq<SXString>)
    requires items != []
    ensures StringBlocks(items) == items[0].Blocks() + StringBlocks(items[1..])
    decreases |items|
  {
    if |items| > 1 {
      BlocksOfHead(items[..|items| - 1]);
      assert items[..|items| - 1][1..] == items[1..][..|items| - 2];
    }
  }

  /** Rewrites the first of a list of strings and keeps the list fit for release. */
  method RewriteHead(h: Heap, items: seq<SXString>, firstline: SXString, secline: SXString,
                     ghost texts: seq<string>)
    returns (domain: SXString)
    requires Carries(items, texts) && |texts| > 1
    requires firstline == items[0] && secline == items[1] && StringBlocks(items) <= h.live
    requires First(texts[0], SPACE) < |texts[0]|
    requires Trimmable(texts[0], First(texts[0], SPACE) + 1)
    requires First(texts[1], SPACE) < |texts[1]| && |Split(texts[1], SPACE)| > 1
    modifies h, firstline`chars, firstline`length, firstline.chars
    ensures fresh(domain) && fresh(domain.chars) && domain.refCount == 1
    ensures domain.Valid() && domain.Text() == Split(texts[1], SPACE)[1]
    ensures firstline.Valid() && firstline.Text() == NewFirstLine(texts[0], domain.Text())
    ensures fresh(firstline.chars) && Apart(items)
    ensures old(h.live) !! domain.Blocks() && domain.Blocks() !! StringBlocks(items)
    ensures StringBlocks(items) - {firstline.chars} <= old(StringBlocks(items))
    ensures h.live == old(h.live) - old(StringBlocks(items)) + StringBlocks(items) + domain.Blocks()
  {
    hide *;
    CarriesAt(items, texts, 0);
    CarriesAt(items, texts, 1);
    BlocksOfHead(items);
    ApartTail(items);
    InBlocks(items, 0);
    InBlocks(items, 1);
    OwnBlocks(firstline);
    ghost var others := StringBlocks(items[1..]);
    domain := RewriteFirstLine(h, firstline, secline);
    OwnBlocks(firstline);
    OwnBlocks(domain);
    BlocksOfHead(items);
    ApartCons(items);
    SwapBlocks(old(h.live), others, {firstline, old(firstline.chars)}, {firstline, firstline.chars},
               domain.Blocks());
  }

  lemma ApartTail(items: seq<SXString>)
    requires Apart(items) && |items| > 1
    ensures items[0] !in items[1..] && Apart(items[1..])
    ensures items[0].Blocks() !! StringBlocks(items[1..])
    ensures items[0] != items[1] && items[0].chars != items[1].chars
  {
    assert forall k :: 0 <= k < |items[1..]| ==> items[1..][k] == items[k + 1];
    ForeignBlocks(items[1..], items[0]);
  }

  lemma ApartCons(items: seq<SXString>)
    requires items != [] && Apart(items[1..]) && items[0].Blocks() !! StringBlocks(items[1..])
    ensures Apart(items)
  {
    forall k | 0 < k < |items|
      ensures items[0] != items[k] && items[0].chars != items[k].chars
    {
      assert items[1..][k - 1] == items[k];
      InBlocks(items[1..], k - 1);
      assert items[k] in items[k].Blocks() && items[k].chars in items[k].Blocks();
    }
    forall j, k | 0 < j < k < |items|
      ensures items[j] != items[k] && items[j].chars != items[k].chars
    {
      assert items[1..][j - 1] == items[j] && items[1..][k - 1] == items[k];
    }
  }

  lemma SwapBlocks(live: set<object>, others: set<object>, before: set<object>, after: set<object>,
                   extra: set<object>)
    requires others + before <= live && others !! before
    ensures live - before + after + extra == live - (before + others) + (after + others) + extra
  {
  }

  lemma OutsideBlocks(items: seq<SXString>, x: SXString)
    requires x !in StringBlocks(items)
    ensures x !in items
  {
    forall k | 0 <= k < |items|
      ensures items[k] != x
    {
      InBlocks(items, k);
      OwnBlocks(items[k]);
    }
  }

  /** Examples/HTTP-proxy/main.c:75-98: rewrites the first line and puts it into the request. */
  method RewriteInto(h: Heap, request: SXString, items: seq<SXString>, firstline: SXString,
                     secline: SXString, ghost text: string)
    returns (domain: SXString)
    requires request.Valid() && request.Text() == text && Parsable(text)
    requires |Split(text, CRLF)| > 1 && Carries(items, Split(text, CRLF))
    requires firstline == items[0] && secline == items[1]
    requires StringBlocks(items) + request.Blocks() <= h.live && request.Blocks() !! StringBlocks(items)
    modifies h, request, firstline`chars, firstline`length, firstline.chars
    ensures fresh(domain) && fresh(domain.chars) && domain.refCount == 1
    ensures domain.Valid() && domain.Text() == HostOf(text)
    ensures request.Valid() && request.Text() == Rewritten(text)
    ensures request.refCount == old(request.refCount) && fresh(request.chars)
    ensures fresh(firstline.chars) && Apart(items)
    ensures StringBlocks(items) - {firstline.chars} <= old(StringBlocks(items))
    ensures domain.Blocks() + {request.chars} !! StringBlocks(items)
    ensures h.live == old(h.live) - old(StringBlocks(items)) - {old(request.chars)}
                    + StringBlocks(items) + {request.chars} + domain.Blocks()
  {
    hide *;
    CrlfText();
    PartsOfRequest(text);
    CarriesAt(items, Split(text, CRLF), 0);
    InBlocks(items, 0);
    OwnBlocks(firstline);
    OwnBlocks(request);
    OutsideBlocks(items, request);
    var original := CopyOf(h, firstline);
    TextLength(original);
    OwnBlocks(original);
    domain := RewriteHead(h, items, firstline, secline, Split(text, CRLF));
    OwnBlocks(domain);
    InBlocks(items, 0);
    ReplacingOccurrencesOfString(h, request, original, firstline);
    FreesLast();
    ReleaseString(h, original);
  }

  /** What is live once the split is dropped again, after a rewrite. */
  lemma BlocksLeft(live: set<object>, vector: set<object>, before: set<object>, after: set<object>,
                   line: object, chars: object, newChars: object, domain: set<object>)
    requires vector + before + {chars} <= live && after - {line} <= before && line !in live
    requires domain + {newChars} !! after + vector && chars !in vector + before && vector !! before
    ensures live - before - {chars} + after + {newChars} + domain - vector - after
         == live - vector - before - {chars} + {newChars} + domain
  {
  }

  /** Examples/HTTP-proxy/main.c:74-99: the lines are read and rewritten, and then released. */
  method RewriteByLines(h: Heap, request: SXString, lines: SXVector<SXString>, ghost text: string)
    returns (domain: SXString)
    requires request.Valid() && request.Text() == text && Parsable(text)
    requires |Split(text, CRLF)| > 1 && Carries(lines.items, Split(text, CRLF))
    requires lines.refCount == 1 && forall k :: 0 <= k < |lines.items| ==> lines.items[k].refCount == 1
    requires request.Blocks() + lines.Blocks() + StringBlocks(lines.items) <= h.live
    requires request.Blocks() !! lines.Blocks() + StringBlocks(lines.items)
    requires lines.Blocks() !! StringBlocks(lines.items)
    modifies h, request, lines, lines.items, lines.items[0].chars
    ensures fresh(domain) && fresh(domain.chars) && domain.refCount == 1
    ensures domain.Valid() && domain.Text() == HostOf(text)
    ensures request.Valid() && request.Text() == Rewritten(text)
    ensures request.refCount == old(request.refCount) && fresh(request.chars)
    ensures h.live == old(h.live) - old(lines.Blocks()) - old(StringBlocks(lines.items)) - {old(request.chars)}
                    + {request.chars} + domain.Blocks()
  {
    hide *;
    ghost var live, vector, before, chars := h.live, lines.Blocks(), StringBlocks(lines.items), request.chars;
    OwnBlocks(request);
    VectorBlocks(lines);
    CrlfText();
    CarriesAt(lines.items, Split(text, CRLF), 0);
    OutsideBlocks(lines.items, request);
    var firstline := lines.ObjectAt(h, 0);
    var secline := lines.ObjectAt(h, 1);
    domain := RewriteInto(h, request, lines.items, firstline, secline, text);
    OwnBlocks(domain);
    BlocksLeft(live, vector, before, StringBlocks(lines.items), firstline.chars, chars, request.chars,
               domain.Blocks());
    OutsideBlocks(lines.items, domain);
    DropAll(h, lines);
  }

  /** Examples/HTTP-proxy/main.c:71-102. The request is rewritten in place and the host is
      returned; every other block allocated on the way is freed. */
  method ParseRequest(h: Heap, request: SXString) returns (domain: SXString)
    requires request.Valid() && request.Blocks() <= h.live && Parsable(request.Text())
    modifies h, request
    ensures fresh(domain) && fresh(domain.chars) && domain.refCount == 1
    ensures domain.Valid() && domain.Text() == HostOf(old(request.Text()))
    ensures request.Valid() && request.Text() == Rewritten(old(request.Text()))
    ensures request.refCount == old(request.refCount) && fresh(request.chars)
    ensures h.live == old(h.live) - {old(request.chars)} + {request.chars} + domain.Blocks()
  {
    hide *;
    ghost var text := request.Text();
    PartsOfRequest(text);
    CrlfText();
    OwnBlocks(request);
    var lines := SubStringsTrimmedByCString(h, request, "\r\n\0", 2);
    CarriesAt(lines.items, Split(text, CRLF), 0);
    domain := RewriteByLines(h, request, lines, text);
  }
}
