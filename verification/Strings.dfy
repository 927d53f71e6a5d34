/** Heap strings and vectors (src/SXString.c, src/SXVector.c). */
module Strings {
  import opened CMemory
  import opened RefCounting
  import opened Splitting
  import opened Locations

  class SXVector<T> {
    var items: seq<T>
    var block: Block
    var refCount: int

    ghost function Blocks(): set<object>
      reads this`block
    {
      {this, block}
    }

    /** src/SXVector.c:11-18 */
    constructor Empty(h: Heap)
      modifies h
      ensures items == [] && refCount == 1
      ensures fresh(block) && h.live == old(h.live) + Blocks() && old(h.live) !! Blocks()
    {
      items, refCount := [], 1;
      var b := h.Malloc();
      block := b;
      new;
      h.Allocated(this);
    }

    /** src/SXVector.c:28-40 */
    constructor FromArray(h: Heap, elements: array<T>, n: nat)
      requires elements in h.live && n <= elements.Length
      modifies h
      ensures items == elements[..n] && refCount == 1
      ensures fresh(block) && h.live == old(h.live) + Blocks() && old(h.live) !! Blocks()
    {
      items, refCount := [], 1;
      var b := h.Malloc();
      block := b;
      new;
      h.Allocated(this);
      for i := 0 to n
        invariant items == elements[..i] && refCount == 1 && block == b
        invariant h.live == old(h.live) + Blocks()
      {
        items := items + [elements[i]];
      }
    }

    /** src/SXVector.c:42-44 */
    method ObjectAt(h: Heap, i: nat) returns (x: T)
      requires Blocks() <= h.live && i < |items|
      ensures x == items[i]
    {
      x := items[i];
    }
  }

  class SXString {
    var length: nat
    var refCount: int
    var chars: array<char>

    /** The bytes before `length` are text and the byte at `length` ends it. */
    ghost predicate Valid()
      reads this, chars
    {
      length < chars.Length && chars[length] == NUL && NUL !in chars[..length]
    }

    ghost function Text(): string
      reads this, chars
      requires Valid()
    {
      chars[..length]
    }

    ghost function Blocks(): set<object>
      reads this`chars
    {
      {this, chars}
    }

    /** src/SXString.c:11-23. The byte that ends up at `length` is the source byte after the
        text, so the new string is terminated exactly when that byte is a terminator. */
    constructor FromCString(h: Heap, cstr: seq<char>, n: nat)
      requires (n <= |cstr| || NUL in cstr) && StrNLen(cstr, n) < |cstr|
      modifies h
      ensures refCount == 1 && fresh(chars)
      ensures h.live == old(h.live) + Blocks() && old(h.live) !! Blocks()
      ensures Valid() <==> cstr[StrNLen(cstr, n)] == NUL
      ensures Valid() ==> Text() == cstr[..StrNLen(cstr, n)]
    {
      var len := StrNLen(cstr, n);
      var block := h.Calloc(len + 1);
      MemCpy(h, block, 0, cstr[..len + 1]);
      chars := block;
      length := StrNLen(h.Bytes(block), len);
      refCount := 1;
      new;
      h.Allocated(this);
      StrNLenIs(chars[..], len, len);
      assert chars[..length] == cstr[..len];
    }
  }

  /** src/SXString.c:25-34 */
  method SubstringInRange(h: Heap, s: SXString, loca: nat, len: nat) returns (sub: SXString)
    requires s.Valid() && s.Blocks() <= h.live && loca + len <= s.length
    modifies h
    ensures fresh(sub) && fresh(sub.chars) && sub.refCount == 1
    ensures h.live == old(h.live) + sub.Blocks() && old(h.live) !! sub.Blocks()
    ensures sub.Valid() && sub.Text() == s.Text()[loca..loca + len]
  {
    var buf := h.Calloc(len + 1);
    MemSet(h, buf, 0, len + 1);
    MemCpy(h, buf, 0, h.Bytes(s.chars)[loca..loca + len]);
    ghost var part := s.Text()[loca..loca + len];
    assert forall k :: 0 <= k < len ==> buf[k] == part[k];
    assert buf[..len] == part;
    StrNLenIs(buf[..], len, len);
    sub := new SXString.FromCString(h, h.Bytes(buf), len);
    h.Free(buf);
  }

  /** src/SXString.c:255-260 */
  method RetainString(h: Heap, s: SXString)
    requires s in h.live
    modifies s
    ensures s.refCount == Retained(old(s.refCount))
    ensures s.chars == old(s.chars) && s.length == old(s.length)
  {
    if s.refCount != WEAK {
      s.refCount := s.refCount + 1;
    }
  }

  /** src/SXString.c:261-274 */
  method ReleaseString(h: Heap, s: SXString)
    requires s.Blocks() <= h.live
    modifies h, s
    ensures s.refCount == Released(old(s.refCount))
    ensures s.chars == old(s.chars) && s.length == old(s.length)
    ensures h.live == if Frees(old(s.refCount)) then old(h.live) - s.Blocks() else old(h.live)
  {
    if s.refCount != WEAK {
      s.refCount := s.refCount - 1;
      if s.refCount == 0 {
        h.Free(s.chars);
        h.Free(s);
      }
    }
  }

  lemma TextLength(s: SXString)
    requires s.Valid()
    ensures |s.Text()| == s.length && NUL !in s.Text() && s.chars in s.Blocks()
    ensures s.length < s.chars.Length && s.chars[..][..s.length] == s.Text()
  {
  }

  lemma OwnBlocks(s: SXString)
    ensures s.Blocks() == {s, s.chars}
  {
  }

  // ---- searching ----

  /** strncmp at index `i` of a valid string tests for an occurrence there. */
  lemma CompareIsOccursAt(s: SXString, trim: seq<char>, len: nat, i: nat)
    requires s.Valid() && i < s.length && len <= |trim| && NUL !in trim[..len]
    ensures SameUpTo(s.chars[i..], trim, len) <==> OccursAt(s.Text(), trim[..len], i)
  {
    var x := s.Text()[i..];
    var junk := s.chars[s.length + 1..];
    assert s.chars[i..] == x + [NUL] + junk;
    SameUpToIsPrefix(x, junk, trim, len);
    Shift(s.Text(), trim[..len], i, 0);
  }

  /** How many occurrences of `t` begin before index `i`. */
  function OccurrencesBefore<T(==)>(s: seq<T>, t: seq<T>, i: nat): nat {
    if i == 0 then 0
    else OccurrencesBefore(s, t, i - 1) + if OccursAt(s, t, i - 1) then 1 else 0
  }

  /** src/SXString.c:40-52: the n-th occurrence, counting from zero. */
  method SubStringLocation(h: Heap, s: SXString, trim: seq<char>, len: nat, n: nat) returns (loca: int)
    requires s.Valid() && s.Blocks() <= h.live && len <= |trim| && NUL !in trim[..len]
    ensures loca == -1 || 0 <= loca < s.length
    ensures loca == -1 ==> OccurrencesBefore(s.Text(), trim[..len], s.length) <= n
    ensures loca != -1 ==> OccursAt(s.Text(), trim[..len], loca)
                           && OccurrencesBefore(s.Text(), trim[..len], loca) == n
  {
    var j := 0;
    for i := 0 to s.length
      invariant j <= n && j == OccurrencesBefore(s.Text(), trim[..len], i)
    {
      CompareIsOccursAt(s, trim, len, i);
      if SameUpTo(h.Bytes(s.chars)[i..], trim, len) {
        if j == n {
          return i;
        }
        j := j + 1;
      }
    }
    return -1;
  }

  /** `ps` lists the occurrences that begin before `bound`. */
  ghost predicate LocationsUpTo<T>(ps: seq<int>, s: seq<T>, t: seq<T>, bound: nat) {
    && (forall k :: 0 <= k < |ps| ==> 0 <= ps[k] < bound && OccursAt(s, t, ps[k]))
    && (forall j, k :: 0 <= j < k < |ps| ==> ps[j] < ps[k])
    && (forall i: nat :: i < bound && OccursAt(s, t, i) ==> i in ps)
  }

  lemma LocationsStep<T>(ps: seq<int>, s: seq<T>, t: seq<T>, i: nat)
    requires LocationsUpTo(ps, s, t, i)
    ensures LocationsUpTo(if OccursAt(s, t, i) then ps + [i] else ps, s, t, i + 1)
  {
    hide OccursAt;
    if OccursAt(s, t, i) {
      var qs := ps + [i];
      assert qs[|ps|] == i;
      forall j: nat | j < i + 1 && OccursAt(s, t, j)
        ensures j in qs
      {
        if j < i { assert j in ps; }
      }
    }
  }

  lemma AllLocations<T>(ps: seq<int>, s: seq<T>, t: seq<T>)
    requires LocationsUpTo(ps, s, t, |s|)
    ensures IsLocations(ps, s, t)
    ensures IsLocations([], s, t) <==> ps == []
  {
    if ps != [] { assert OccursAt(s, t, ps[0]) && ps[0] !in []; }
  }

  /** The search loop (src/SXString.c:60-62). */
  method CollectLocations(h: Heap, s: SXString, trim: seq<char>, len: nat, locas: array<int>)
    returns (n: nat)
    requires s.Blocks() <= h.live && locas in h.live
    requires s.Valid() && len <= |trim| && NUL !in trim[..len] && locas.Length == s.length
    modifies locas
    ensures n <= locas.Length && LocationsUpTo(locas[..n], s.Text(), trim[..len], s.length)
  {
    hide *;
    ghost var text, pattern := s.Text(), trim[..len];
    NoLocations(text, pattern);
    n := 0;
    assert locas[..n] == [];
    TextLength(s);
    for i := 0 to s.length
      invariant n <= i && LocationsUpTo(locas[..n], text, pattern, i)
    {
      CompareIsOccursAt(s, trim, len, i);
      ghost var before := locas[..n];
      LocationsStep(before, text, pattern, i);
      if SameUpTo(h.Bytes(s.chars)[i..], trim, len) {
        locas[n] := i;
        n := n + 1;
        assert locas[..n] == before + [i];
      }
    }
  }

  lemma NoLocations<T>(s: seq<T>, t: seq<T>)
    ensures LocationsUpTo([], s, t, 0)
  {
  }

  /** src/SXString.c:54-69: every occurrence, or null when there is none. */
  method SubCStringLocations(h: Heap, s: SXString, trim: seq<char>, len: nat)
    returns (v: SXVector?<int>)
    requires s.Valid() && s.Blocks() <= h.live && len <= |trim| && NUL !in trim[..len]
    modifies h
    ensures v == null <==> IsLocations([], s.Text(), trim[..len])
    ensures v == null ==> h.live == old(h.live)
    ensures v != null ==> fresh(v) && fresh(v.block) && v.refCount == 1 && |v.items| > 0
    ensures v != null ==> IsLocations(v.items, s.Text(), trim[..len])
    ensures v != null ==> h.live == old(h.live) + v.Blocks() && old(h.live) !! v.Blocks()
  {
    hide *;
    TextLength(s);
    var locas := h.Automatic(s.length, 0);
    var n := CollectLocations(h, s, trim, len, locas);
    AllLocations(locas[..n], s.Text(), trim[..len]);
    if n == 0 {
      h.Leave(locas);
      return null;
    }
    v := new SXVector<int>.FromArray(h, locas, n);
    h.Leave(locas);
  }
}
