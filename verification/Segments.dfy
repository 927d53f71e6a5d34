/** The incremental splitter of the Swift port (Swift/spartanX/Helper.swift:35-91). */
module Segments {
  import opened Splitting
  import opened Locations

  newtype Byte = b: int | 0 <= b < 256

  datatype Found = Nothing | At(index: nat)

  /** What the iterator has still to yield on the data `d`. */
  function Pieces<T(==)>(d: seq<T>, sep: seq<T>): seq<seq<T>>
    requires sep != []
    decreases |d|
  {
    if |d| < |sep| then []
    else
      var k := First(d, sep);
      [d[..k]] + if k == |d| then [] else Pieces(d[k + |sep|..], sep)
  }

  // ---- against the other splitter ----

  lemma FirstFits<T>(d: seq<T>, sep: seq<T>, k: nat)
    requires sep != [] && k == First(d, sep) < |d|
    ensures k + |sep| <= |d|
  {
    assert OccursAt(d, sep, k);
  }

  lemma PiecesMore<T>(d: seq<T>, sep: seq<T>, k: nat, rest: seq<T>)
    requires sep != [] && k == First(d, sep) < |d| && k + |sep| <= |d| && rest == d[k + |sep|..]
    ensures Pieces(d, sep) == [d[..k]] + Pieces(rest, sep)
  {
    hide First, OccursAt;
  }

  lemma PiecesStep<T>(d: seq<T>, sep: seq<T>)
    requires sep != []
    ensures |d| < |sep| ==> Pieces(d, sep) == []
    ensures |d| >= |sep| ==>
              var k := First(d, sep);
              && (k < |d| ==> k + |sep| <= |d| && Pieces(d, sep) == [d[..k]] + Pieces(d[k + |sep|..], sep))
              && (k == |d| ==> Pieces(d, sep) == [d[..k]])
  {
    var k := First(d, sep);
    if k < |d| {
      hide *;
      FirstFits(d, sep, k);
      PiecesMore(d, sep, k, d[k + |sep|..]);
    } else {
      hide First, OccursAt;
    }
  }

  /** The iterator yields the pieces of the split, except a last piece shorter than the separator. */
  lemma {:induction false} PiecesAreSplit<T>(d: seq<T>, sep: seq<T>)
    requires sep != []
    ensures var ps := Split(d, sep);
            Pieces(d, sep) == if |ps[|ps| - 1]| < |sep| then ps[..|ps| - 1] else ps
    decreases |d|
  {
    var k := First(d, sep);
    SplitFirst(d, sep, k);
    PiecesStep(d, sep);
    hide Pieces, Split, First;
    if k < |d| {
      var rest := d[k + |sep|..];
      PiecesAreSplit(rest, sep);
      var ps := Split(rest, sep);
      assert ([d[..k]] + ps)[..|ps|] == [d[..k]] + ps[..|ps| - 1];
    } else {
      assert d[..k] == d;
    }
  }

  /** The two splitters agree: where occurrences do not overlap, the j-th piece of the iterator is
      the j-th range that the C splitter cuts, and only a last range too short is left out. */
  lemma TwoSplittersAgree<T>(d: seq<T>, sep: seq<T>, ps: seq<int>)
    requires sep != [] && IsLocations(ps, d, sep) && Spaced(d, sep)
    ensures |Pieces(d, sep)| == |ps| + if |d| - Low(ps, sep, |ps|) < |sep| then 0 else 1
    ensures forall j: nat :: j < |Pieces(d, sep)| ==>
              && 0 <= Low(ps, sep, j) <= High(ps, d, j) <= |d|
              && Pieces(d, sep)[j] == d[Low(ps, sep, j)..High(ps, d, j)]
  {
    hide Pieces, Split, IsLocations, Spaced;
    PiecesAreSplit(d, sep);
    SplitAtLocations(ps, d, sep);
    assert High(ps, d, |ps|) == |d|;
  }

  /** What follows the last separator. */
  function Tail<T(==)>(d: seq<T>, sep: seq<T>): seq<T>
    requires sep != []
  {
    var ps := Split(d, sep);
    ps[|ps| - 1]
  }

  /** The pieces hold no separator, and with the tail that is not yielded they rebuild the data. */
  lemma PiecesRebuild<T>(d: seq<T>, sep: seq<T>)
    requires sep != []
    ensures forall i :: 0 <= i < |Pieces(d, sep)| ==> Free(Pieces(d, sep)[i], sep)
    ensures Free(Tail(d, sep), sep)
    ensures |Tail(d, sep)| >= |sep| ==> Pieces(d, sep) != [] && Join(Pieces(d, sep), sep) == d
    ensures |Tail(d, sep)| < |sep| && Pieces(d, sep) == [] ==> Tail(d, sep) == d
    ensures |Tail(d, sep)| < |sep| && Pieces(d, sep) != [] ==>
              Join(Pieces(d, sep), sep) + sep + Tail(d, sep) == d
  {
    hide Pieces;
    PiecesAreSplit(d, sep);
    JoinSplit(d, sep);
    SplitPiecesFree(d, sep);
    hide Split;
    var ps := Split(d, sep);
    assert Tail(d, sep) == ps[|ps| - 1];
    if |ps| > 1 {
      JoinLast(ps, sep);
    }
  }

  lemma {:induction false} JoinLast<T>(ps: seq<seq<T>>, r: seq<T>)
    requires |ps| > 1
    ensures Join(ps, r) == Join(ps[..|ps| - 1], r) + r + ps[|ps| - 1]
    decreases |ps|
  {
    if |ps| > 2 {
      JoinLast(ps[1..], r);
      assert ps[1..][..|ps| - 2] == ps[..|ps| - 1][1..];
    }
  }

  /** There is room in `d` for `n` times `m`. */
  predicate Fits(n: nat, m: nat, d: nat) {
    n * m <= d
  }

  lemma OneMoreFits(n: nat, m: nat, r: nat, d: nat)
    requires Fits(n, m, r) && r + m <= d
    ensures Fits(n + 1, m, d)
  {
    TimesSucc(n, m);
  }

  lemma NoneFits(m: nat, d: nat)
    ensures Fits(0, m, d)
  {
  }

  /** A piece and what is left of the data behind it. */
  lemma PieceAndRest<T>(d: seq<T>, sep: seq<T>) returns (rest: seq<T>)
    requires sep != [] && |d| >= |sep|
    ensures |rest| + |sep| <= |d| && |Pieces(d, sep)| == |Pieces(rest, sep)| + 1
  {
    hide First, OccursAt, Pieces;
    PiecesStep(d, sep);
    PiecesStep([], sep);
    var k := First(d, sep);
    rest := if k < |d| then d[k + |sep|..] else [];
  }

  /** Each piece uses up at least the length of a separator. */
  lemma {:induction false} PiecesBound<T>(d: seq<T>, sep: seq<T>)
    requires sep != []
    ensures Fits(|Pieces(d, sep)|, |sep|, |d|)
    decreases |d|
  {
    if |d| < |sep| {
      PiecesStep(d, sep);
      NoneFits(|sep|, |d|);
    } else {
      hide Pieces, Fits;
      var rest := PieceAndRest(d, sep);
      PiecesBound(rest, sep);
      OneMoreFits(|Pieces(rest, sep)|, |sep|, |rest|, |d|);
    }
  }

  lemma NoMoreThan(k: nat, m: nat, n: nat)
    requires m > 0 && Fits(k, m, n)
    ensures k <= n
  {
    assert k * (m - 1) >= 0;
  }

  // ---- the iterator ----

  /** Swift/spartanX/Helper.swift:36-52. A comparison that would run past the data is a mismatch. */
  method FindBytes(data: seq<Byte>, b: seq<Byte>, offset: int, len: int) returns (found: Found)
    requires len <= |b|
    ensures found.Nothing? <==> offset < 0 || len < 0 || data == [] || len + offset > |data|
    ensures found.At? && len == 0 ==> found.index == offset
    ensures found.At? && len > 0 ==> found.index == offset + First(data[offset..], b[..len])
  {
    if offset < 0 || len < 0 || |data| == 0 || len + offset > |data| {
      return Nothing;
    }
    var pattern := b[..len];
    ghost var ahead := data[offset..];
    var i := 0;
    Shift(data, pattern, offset, 0);
    while !OccursAt(data, pattern, offset + i)
      invariant 0 <= i && offset + i <= |data|
      invariant forall j: nat :: j < i ==> !OccursAt(ahead, pattern, j)
      invariant OccursAt(ahead, pattern, i) == OccursAt(data, pattern, offset + i)
      decreases |data| - i
    {
      if i + offset == |data| {
        break;
      }
      i := i + 1;
      Shift(data, pattern, offset, i);
    }
    if len > 0 {
      FirstIs(ahead, pattern, i);
    } else {
      assert OccursAt(ahead, pattern, 0);
    }
    return At(i + offset);
  }

  lemma NoPieces<T>(sep: seq<T>)
    requires sep != []
    ensures Pieces([], sep) == []
  {
  }

  lemma HandOver<T>(done: seq<T>, x: T, rest: seq<T>, all: seq<T>)
    requires done + ([x] + rest) == all
    ensures (done + [x]) + rest == all && done + [x] <= all
  {
  }

  class NSDataSegment {
    const core: seq<Byte>
    const separator: seq<Byte>
    var curOffset: int
    var nextOffset: int
    var curlen: int

    ghost predicate Valid()
      reads this
    {
      && 0 <= nextOffset <= |core| + |separator|
      && 0 <= curOffset && 0 <= curlen && curOffset + curlen <= |core|
    }

    function CurVal(): seq<Byte>
      reads this
      requires Valid()
    {
      core[curOffset..curOffset + curlen]
    }

    ghost function Remaining(): seq<Byte>
      reads this
      requires Valid()
    {
      if nextOffset <= |core| then core[nextOffset..] else []
    }

    /** What the iterator has still to yield. */
    ghost function Pending(): seq<seq<Byte>>
      reads this
      requires Valid() && separator != []
    {
      Pieces(Remaining(), separator)
    }

    constructor (core: seq<Byte>, separator: seq<Byte>)
      ensures this.core == core && this.separator == separator && Valid()
      ensures Remaining() == core
    {
      this.core, this.separator := core, separator;
      curOffset, nextOffset, curlen := 0, 0, 0;
    }

    /** Swift/spartanX/Helper.swift:69-77. With an empty separator it never moves. */
    method Next() returns (more: bool)
      requires Valid()
      modifies this
      ensures Valid()
      ensures separator != [] ==> more == (old(Pending()) != [])
      ensures separator != [] && more ==> [CurVal()] + Pending() == old(Pending())
      ensures separator == [] ==> more == (core != []) && nextOffset == old(nextOffset)
      ensures separator == [] && more ==> CurVal() == []
      ensures !more ==> nextOffset == old(nextOffset) && curOffset == old(curOffset) && curlen == old(curlen)
      ensures !more ==> CurVal() == old(CurVal()) && (separator != [] ==> Pending() == old(Pending()))
    {
      hide Pieces, First;
      var found := FindBytes(core, separator, nextOffset, |separator|);
      assert separator[..|separator|] == separator;
      ghost var before := Remaining();
      match found
      case At(endpoint) =>
        if separator != [] { PiecesStep(before, separator); NoPieces(separator); }
        curlen := endpoint - nextOffset;
        curOffset := nextOffset;
        nextOffset := |separator| + endpoint;
        assert CurVal() == before[..curlen];
        if curlen < |before| {
          assert Remaining() == before[curlen + |separator|..];
        }
        return true;
      case Nothing =>
        if separator != [] { PiecesStep(before, separator); }
        return false;
    }

    /** The same loop, for at most `n` rounds: it ends, and then within |core| + 1 rounds, exactly
        under the precondition of FindAll. */
    method FindWithin(handler: seq<Byte> -> bool, n: nat) returns (ended: bool)
      requires Valid()
      modifies this
      ensures separator == [] && core != [] && handler([]) ==> !ended
      ensures (separator != [] || core == [] || !handler([])) && n > |core| ==> ended
    {
      hide *;
      ghost var all: nat := 0;
      if separator != [] {
        all := |Pending()|;
        PendingBound();
      }
      for i := 0 to n
        invariant Valid()
        invariant separator != [] ==> i + |Pending()| <= all
        invariant separator == [] && i > 0 ==> core != [] && handler([])
      {
        var more := Next();
        if !more || !handler(CurVal()) {
          return true;
        }
      }
      return false;
    }

    lemma PendingBound()
      requires Valid() && separator != []
      ensures |Pending()| <= |core|
    {
      PiecesBound(Remaining(), separator);
      hide Pieces;
      NoMoreThan(|Pending()|, |separator|, |core|);
    }

    /** Swift/spartanX/Helper.swift:79-85: hands every piece to the handler until it refuses one.
        The precondition says exactly when that ends. */
    method FindAll(handler: seq<Byte> -> bool) returns (handled: seq<seq<Byte>>)
      requires Valid()
      requires separator != [] || core == [] || !handler([])
      modifies this
      ensures Valid()
      ensures separator != [] ==> handled <= old(Pending())
      ensures forall i :: 0 <= i < |handled| - 1 ==> handler(handled[i])
      ensures separator != [] ==>
                handled == old(Pending()) || (handled != [] && !handler(handled[|handled| - 1]))
      ensures separator != [] ==> handled + Pending() == old(Pending())
      ensures handled != [] ==> CurVal() == handled[|handled| - 1]
      ensures handled == [] ==> curOffset == old(curOffset) && curlen == old(curlen)
      ensures separator == [] ==> handled == if core == [] then [] else [[]]
    {
      hide *;
      handled := [];
      ghost var all := if separator != [] then Pending() else [];
      while true
        invariant Valid()
        invariant separator != [] ==> handled + Pending() == all
        invariant forall i :: 0 <= i < |handled| ==> handler(handled[i])
        invariant separator == [] ==> handled == []
        invariant handled != [] ==> CurVal() == handled[|handled| - 1]
        invariant handled == [] ==> curOffset == old(curOffset) && curlen == old(curlen)
        decreases if separator != [] then |Pending()| else 0
      {
        var more := Next();
        if !more {
          return;
        }
        if separator != [] { HandOver(handled, CurVal(), Pending(), all); }
        handled := handled + [CurVal()];
        if !handler(CurVal()) {
          return;
        }
      }
    }
  }

  /** Over a whole run: what FindAll hands out, and that at most |data| / |separator| calls happen. */
  method SplitData(data: seq<Byte>, separator: seq<Byte>) returns (handled: seq<seq<Byte>>)
    requires separator != []
    ensures handled == Pieces(data, separator) && |handled| * |separator| <= |data|
  {
    var segment := new NSDataSegment(data, separator);
    handled := segment.FindAll(_ => true);
    PiecesBound(data, separator);
  }
}
