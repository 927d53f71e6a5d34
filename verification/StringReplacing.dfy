/** The two-cursor replacement loop, into a new string and in place (src/SXString.c:130-226). */
module StringReplacing {
  import opened CMemory
  import opened RefCounting
  import opened Splitting
  import opened Locations
  import opened Strings
  import opened StringSplitting

  /** The loop bound of the source is the length of the output, and the buffer of the source has
      room for it and a terminator. */
  lemma OutputFits<T>(ps: seq<int>, s: seq<T>, t: seq<T>, r: seq<T>)
    requires IsLocations(ps, s, t) && t != [] && Spaced(s, t)
    ensures |ReplaceAll(s, t, r)| == |s| + (|r| - |t|) * |ps|
    ensures |ReplaceAll(s, t, r)| + 1 <= |s| + |r| * |s| + 1
  {
    SplitAtLocations(ps, s, t);
    ReplacedLength(s, t, r);
    assert Cuts(s, t) == |ps|;
    Distribute(|r|, |t|, |ps|);
    Scale(|ps|, |t|, |s|, |r|);
  }

  lemma Distribute(a: int, b: int, m: int)
    ensures (a - b) * m == m * a - m * b
  {
  }

  lemma Scale(m: nat, b: nat, n: nat, a: nat)
    requires b > 0 && m * b <= n
    ensures m * a <= a * n && 0 <= m * b
  {
    assert m <= m * b by { assert m * (b - 1) >= 0; }
    assert (n - m) * a >= 0;
  }

  /** What one round of the loop does to the output so far. */
  lemma Continue<T>(done: seq<T>, piece: seq<T>, rest: seq<T>, full: seq<T>)
    requires done + (piece + rest) == full
    ensures (done + piece) + rest == full
  {
  }

  /** src/SXString.c:142-155 and 197-209. Reading the position list past its end counts as no match. */
  method FillReplaced(h: Heap, buf: array<char>, s: SXString, t: SXString, r: SXString, ps: SXVector<int>)
    requires buf in h.live && ps.Blocks() + s.Blocks() + t.Blocks() + r.Blocks() <= h.live
    requires s.Valid() && t.Valid() && r.Valid() && t.length > 0
    requires IsLocations(ps.items, s.Text(), t.Text()) && Spaced(s.Text(), t.Text())
    requires buf.Length == s.length + r.length * s.length + 1
    requires buf != s.chars && buf != r.chars && buf != t.chars
    requires forall k :: 0 <= k < buf.Length ==> buf[k] == NUL
    modifies buf
    ensures ReplaceAll(s.Text(), t.Text(), r.Text()) + [NUL] <= buf[..]
  {
    hide *;
    ghost var text, pattern, new_ := s.Text(), t.Text(), r.Text();
    TextLength(s);
    TextLength(t);
    TextLength(r);
    ghost var full := ReplaceAll(text, pattern, new_);
    OutputFits(ps.items, text, pattern, new_);
    assert text[0..] == text && buf[..0] == [];
    PassedNone(ps.items, text, pattern);
    var delta := r.length - t.length;
    var i, pos, n := 0, 0, 0;
    while i < s.length + delta * |ps.items|
      invariant 0 <= i <= |full| && 0 <= pos <= s.length
      invariant Passed(ps.items, n, pos) && 0 <= n <= |ps.items|
      invariant buf[..i] + ReplaceAll(text[pos..], pattern, new_) == full
      invariant forall k :: i <= k < buf.Length ==> buf[k] == NUL
      decreases s.length - pos
    {
      ghost var done := buf[..i];
      ReplaceNothing(text[pos..], pattern, new_);
      if n < |ps.items| && pos == ps.items[n] {
        MeetLocation(ps.items, text, pattern, new_, n, pos);
        Continue(done, new_, ReplaceAll(text[pos + |pattern|..], pattern, new_), full);
        n := n + 1;
        MemCpy(h, buf, i, h.Bytes(r.chars)[..r.length]);
        assert buf[..i + r.length] == done + new_;
        i := i + r.length - 1;
        pos := pos + t.length;
      } else {
        CopyCharacter(ps.items, text, pattern, new_, n, pos);
        Continue(done, [text[pos]], ReplaceAll(text[pos + 1..], pattern, new_), full);
        buf[i], buf[i + 1] := s.chars[pos], NUL;
        assert buf[..i + 1] == done + [text[pos]];
        pos := pos + 1;
      }
      i := i + 1;
    }
    assert i == |full|;
    assert buf[..i] == full;
  }

  lemma PassedNone<T>(ps: seq<int>, s: seq<T>, t: seq<T>)
    requires IsLocations(ps, s, t)
    ensures Passed(ps, 0, 0)
  {
  }

  lemma ReplaceNothing<T>(s: seq<T>, t: seq<T>, r: seq<T>)
    requires t != []
    ensures s == [] ==> ReplaceAll(s, t, r) == []
  {
  }

  lemma ReplacedHasNoNul(s: string, t: string, r: string)
    requires t != [] && NUL !in s && NUL !in r
    ensures NUL !in ReplaceAll(s, t, r)
  {
    if NUL in ReplaceAll(s, t, r) { ReplacedChars(s, t, r, NUL); }
  }

  /** A terminated text at the start of a block is the string that the block holds. */
  lemma HeldString(mem: seq<char>, text: string, n: nat)
    requires text + [NUL] <= mem && NUL !in text && |text| <= n
    ensures NUL in mem && StrNLen(mem, n) == |text| && mem[..|text|] == text && mem[|text|] == NUL
  {
    assert mem[|text|] == NUL;
    assert forall k :: 0 <= k < |text| ==> mem[k] == text[k];
    StrNLenIs(mem, n, |text|);
  }

  /** src/SXString.c:186-213: into a new string. */
  method ByReplacingOccurrencesOfString(h: Heap, s: SXString, t: SXString, r: SXString)
    returns (out: SXString)
    requires s.Blocks() + t.Blocks() + r.Blocks() <= h.live
    requires s.Valid() && t.Valid() && r.Valid() && t.length > 0
    requires !IsLocations([], s.Text(), t.Text()) && Spaced(s.Text(), t.Text())
    modifies h
    ensures fresh(out) && fresh(out.chars) && out.refCount == 1
    ensures out.Valid() && out.Text() == ReplaceAll(s.Text(), t.Text(), r.Text())
    ensures h.live == old(h.live) + out.Blocks()
  {
    hide *;
    ghost var text, pattern, new_ := s.Text(), t.Text(), r.Text();
    TextLength(s);
    TextLength(t);
    TextLength(r);
    var len := s.length + r.length * s.length + 1;
    var buf := h.Automatic(len, NUL);
    var positions := SubCStringLocations(h, s, h.Bytes(t.chars), t.length);
    FillReplaced(h, buf, s, t, r, positions);
    ReplacedHasNoNul(text, pattern, new_);
    OutputFits(positions.items, text, pattern, new_);
    HeldString(buf[..], ReplaceAll(text, pattern, new_), len);
    FreesLast();
    ReleaseLocations(h, positions);
    out := new SXString.FromCString(h, h.Bytes(buf), len);
    h.Leave(buf);
  }

  /** src/SXString.c:130-166: in place. */
  method ReplacingOccurrencesOfString(h: Heap, s: SXString, t: SXString, r: SXString)
    requires s.Valid() && t.Valid() && r.Valid() && t.length > 0
    requires s.Blocks() + t.Blocks() + r.Blocks() <= h.live
    requires !IsLocations([], s.Text(), t.Text()) && Spaced(s.Text(), t.Text())
    modifies h, s
    ensures s.Valid() && s.Text() == ReplaceAll(old(s.Text()), old(t.Text()), old(r.Text()))
    ensures fresh(s.chars) && s.refCount == old(s.refCount)
    ensures h.live == old(h.live) - {old(s.chars)} + {s.chars}
  {
    ghost var text, pattern, new_ := s.Text(), t.Text(), r.Text();
    ghost var full := ReplaceAll(text, pattern, new_);
    hide *;
    TextLength(s);
    TextLength(t);
    TextLength(r);
    var len := s.length + r.length * s.length + 1;
    var buf := h.Calloc(len);
    var positions := SubCStringLocations(h, s, h.Bytes(t.chars), t.length);
    FillReplaced(h, buf, s, t, r, positions);
    ReplacedHasNoNul(text, pattern, new_);
    OutputFits(positions.items, text, pattern, new_);
    FreesLast();
    ReleaseLocations(h, positions);
    OwnBlocks(s);
    Rewrite(h, s, buf, full);
    h.Free(buf);
  }

  /** src/SXString.c:159-165: the string takes over the contents of a block. */
  method Rewrite(h: Heap, s: SXString, buf: array<char>, ghost text: string)
    requires s.Blocks() <= h.live && buf in h.live && text + [NUL] <= buf[..] && NUL !in text && buf != s.chars
    modifies h, s`chars, s`length
    ensures s.Valid() && s.Text() == text && fresh(s.chars)
    ensures h.live == old(h.live) - {old(s.chars)} + {s.chars}
  {
    var chars := h.Realloc(s.chars, buf.Length);
    MemSet(h, chars, 0, buf.Length);
    MemCpy(h, chars, 0, h.Bytes(buf));
    assert chars[..] == buf[..];
    HeldString(chars[..], text, buf.Length);
    s.chars := chars;
    s.length := StrNLen(h.Bytes(chars), chars.Length);
  }

  /** Replacing `t` by a marker that shares no character with the text, and then the marker by
      `t`, is within the preconditions of both calls and gives the text back. The marker occurs
      in the output just where it was put. */
  lemma MarkerRoundTrip(s: string, t: string, r: string)
    requires t != [] && r != [] && !IsLocations([], s, t)
    requires Borderless(r) && forall c :: c in r ==> c !in s
    ensures Spaced(ReplaceAll(s, t, r), r) && !IsLocations([], ReplaceAll(s, t, r), r)
    ensures ReplaceAll(ReplaceAll(s, t, r), r, t) == s
    ensures forall ps, qs ::
              IsLocations(ps, s, t) && Spaced(s, t) && IsLocations(qs, ReplaceAll(s, t, r), r) ==> |qs| == |ps|
  {
    var out := ReplaceAll(s, t, r);
    BorderlessIsSpaced(out, r);
    ReplaceInvertible(s, t, r);
    assert First(s, t) < |s|;
    assert |Split(s, t)| > 1;
    assert First(out, r) < |out|;
    assert First(out, r) !in [];
    forall ps, qs | IsLocations(ps, s, t) && Spaced(s, t) && IsLocations(qs, out, r)
      ensures |qs| == |ps|
    {
      SplitAtLocations(ps, s, t);
      SplitAtLocations(qs, out, r);
    }
  }
}
