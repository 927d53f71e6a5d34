/** Splitting a heap string into a vector of heap strings (src/SXString.c:87-128) and dropping
    such a vector (src/SXVector.c:73-89). */
module StringSplitting {
  import opened CMemory
  import opened RefCounting
  import opened Splitting
  import opened Locations
  import opened Strings

  /** No two strings of the list share a struct or a character block. */
  ghost predicate Apart(items: seq<SXString>)
    reads items
  {
    forall j, k :: 0 <= j < k < |items| ==>
      items[j] != items[k] && items[j].chars != items[k].chars
  }

  /** The list holds these texts, each in blocks of its own. */
  ghost predicate Carries(items: seq<SXString>, texts: seq<string>)
    reads items, set s | s in items :: s.chars
  {
    && |items| == |texts|
    && Apart(items)
    && (forall k :: 0 <= k < |items| ==> items[k].Valid() && items[k].Text() == texts[k])
  }

  ghost function StringBlocks(items: seq<SXString>): set<object>
    reads items
  {
    if items == [] then {}
    else StringBlocks(items[..|items| - 1]) + items[|items| - 1].Blocks()
  }

  lemma {:induction false} InBlocks(items: seq<SXString>, k: nat)
    requires k < |items|
    ensures items[k].Blocks() <= StringBlocks(items)
    decreases |items|
  {
    if k < |items| - 1 { InBlocks(items[..|items| - 1], k); }
  }

  /** The first `i` texts are held, by strings with one reference each. */
  ghost predicate Stored(items: seq<SXString>, texts: seq<string>, i: nat)
    reads items, set s | s in items :: s.chars
  {
    i <= |texts| && Carries(items, texts[..i]) && forall k :: 0 <= k < |items| ==> items[k].refCount == 1
  }

  lemma NothingStored(texts: seq<string>)
    ensures Stored([], texts, 0) && StringBlocks([]) == {}
  {
  }

  lemma StoredAppend(items: seq<SXString>, texts: seq<string>, i: nat, x: SXString)
    requires i < |texts| && Stored(items, texts, i)
    requires x.Valid() && x.Text() == texts[i] && x.refCount == 1
    requires x.Blocks() !! StringBlocks(items)
    ensures Stored(items + [x], texts, i + 1)
    ensures StringBlocks(items + [x]) == StringBlocks(items) + x.Blocks()
  {
    assert texts[..i + 1] == texts[..i] + [texts[i]];
    forall k | 0 <= k < |items|
      ensures items[k] != x && items[k].chars != x.chars
    {
      InBlocks(items, k);
      assert items[k] in items[k].Blocks() && items[k].chars in items[k].Blocks();
    }
    assert (items + [x])[..|items|] == items;
  }

  /** The range of the i-th piece (src/SXString.c:101-110). */
  method PieceRange(h: Heap, loca: SXVector<int>, i: nat, target: SXString, sep: SXString)
    returns (lo: int, len: int)
    requires loca.Blocks() + target.Blocks() + sep.Blocks() <= h.live
    requires |loca.items| > 0 && i <= |loca.items|
    requires target.Valid() && sep.Valid()
    ensures lo == Low(loca.items, sep.Text(), i)
    ensures lo + len == High(loca.items, target.Text(), i)
  {
    if i == 0 {
      lo := 0;
      len := loca.ObjectAt(h, i);
    } else if i == |loca.items| {
      var before := loca.ObjectAt(h, i - 1);
      len := target.length - (before + sep.length);
      lo := target.length - len;
    } else {
      var before := loca.ObjectAt(h, i - 1);
      var here := loca.ObjectAt(h, i);
      lo := before + sep.length;
      len := here - before - sep.length;
    }
  }

  /** The ranges that the locations describe hold these pieces. */
  ghost predicate Describes(loca: SXVector<int>, target: SXString, sep: SXString, pieces: seq<string>)
    reads loca, target, target.chars, sep, sep.chars
    requires target.Valid() && sep.Valid()
  {
    && |pieces| == |loca.items| + 1
    && forall j: nat :: j <= |loca.items| ==>
         && 0 <= Low(loca.items, sep.Text(), j) <= High(loca.items, target.Text(), j) <= target.length
         && pieces[j]
         == target.Text()[Low(loca.items, sep.Text(), j)..High(loca.items, target.Text(), j)]
  }

  /** Cuts one piece out (src/SXString.c:101-112). */
  method CutPiece(h: Heap, target: SXString, sep: SXString, loca: SXVector<int>, i: nat,
                  ghost pieces: seq<string>)
    returns (piece: SXString)
    requires loca.Blocks() + target.Blocks() + sep.Blocks() <= h.live
    requires target.Valid() && sep.Valid() && 0 < |loca.items| && i <= |loca.items|
    requires Describes(loca, target, sep, pieces)
    modifies h
    ensures fresh(piece) && fresh(piece.chars) && piece.refCount == 1
    ensures piece.Valid() && piece.Text() == pieces[i]
    ensures h.live == old(h.live) + piece.Blocks() && old(h.live) !! piece.Blocks()
  {
    var lo, len := PieceRange(h, loca, i, target, sep);
    piece := SubstringInRange(h, target, lo, len);
  }

  /** Stores one more piece in the vector (src/SXString.c:113-114). */
  method StorePiece(h: Heap, v: SXVector<SXString>, target: SXString, sep: SXString,
                    loca: SXVector<int>, i: nat, ghost pieces: seq<string>)
    returns (piece: SXString)
    requires loca.Blocks() + target.Blocks() + sep.Blocks() <= h.live
    requires target.Valid() && sep.Valid() && 0 < |loca.items| && i <= |loca.items|
    requires i < |pieces| && Describes(loca, target, sep, pieces) && Stored(v.items, pieces, i)
    requires v.Blocks() + StringBlocks(v.items) <= h.live
    modifies h, v`items
    ensures v.items == old(v.items) + [piece] && fresh(piece) && fresh(piece.chars)
    ensures Stored(v.items, pieces, i + 1)
    ensures StringBlocks(v.items) == old(StringBlocks(v.items)) + piece.Blocks()
    ensures h.live == old(h.live) + piece.Blocks() && old(h.live) !! piece.Blocks()
  {
    hide *;
    piece := CutPiece(h, target, sep, loca, i, pieces);
    StoredAppend(v.items, pieces, i, piece);
    v.items := v.items + [piece];
  }

  /** The loop over the locations (src/SXString.c:100-115). */
  method CutPieces(h: Heap, v: SXVector<SXString>, target: SXString, sep: SXString,
                   loca: SXVector<int>, ghost pieces: seq<string>)
    requires v.Blocks() + loca.Blocks() + target.Blocks() + sep.Blocks() <= h.live
    requires target.Valid() && sep.Valid() && |loca.items| > 0 && v.items == []
    requires |pieces| == |loca.items| + 1 && Describes(loca, target, sep, pieces)
    modifies h, v`items
    ensures Stored(v.items, pieces, |pieces|)
    ensures forall k :: 0 <= k < |v.items| ==> fresh(v.items[k]) && fresh(v.items[k].chars)
    ensures h.live == old(h.live) + StringBlocks(v.items) && old(h.live) !! StringBlocks(v.items)
  {
    hide *;
    NothingStored(pieces);
    var i := 0;
    while i <= |loca.items|
      invariant 0 <= i <= |loca.items| + 1 && |v.items| == i
      invariant Stored(v.items, pieces, i)
      invariant forall k :: 0 <= k < |v.items| ==> fresh(v.items[k]) && fresh(v.items[k].chars)
      invariant h.live == old(h.live) + StringBlocks(v.items) && old(h.live) !! StringBlocks(v.items)
    {
      var _ := StorePiece(h, v, target, sep, loca, i, pieces);
      i := i + 1;
    }
  }

  /** src/SXString.c:92-119 */
  method SubStringsTrimmedByString(h: Heap, target: SXString, sep: SXString)
    returns (v: SXVector<SXString>)
    requires target.Blocks() + sep.Blocks() <= h.live
    requires target.Valid() && sep.Valid() && sep.length > 0
    requires !IsLocations([], target.Text(), sep.Text()) && Spaced(target.Text(), sep.Text())
    modifies h
    ensures fresh(v) && fresh(v.block) && v.refCount == 1
    ensures Carries(v.items, Split(target.Text(), sep.Text()))
    ensures forall k :: 0 <= k < |v.items| ==>
              fresh(v.items[k]) && fresh(v.items[k].chars) && v.items[k].refCount == 1
    ensures h.live == old(h.live) + v.Blocks() + StringBlocks(v.items)
    ensures old(h.live) !! v.Blocks() + StringBlocks(v.items) && v.Blocks() !! StringBlocks(v.items)
  {
    hide *;
    ghost var text, pattern := target.Text(), sep.Text();
    TextLength(sep);
    var loca := SubCStringLocations(h, target, h.Bytes(sep.chars), sep.length);
    v := new SXVector<SXString>.Empty(h);
    LocationsDescribe(loca, target, sep);
    CutPieces(h, v, target, sep, loca, Split(text, pattern));
    AllStored(v.items, Split(text, pattern));
    FreesLast();
    ReleaseLocations(h, loca);
  }

  lemma LocationsDescribe(loca: SXVector<int>, target: SXString, sep: SXString)
    requires target.Valid() && sep.Valid() && sep.length > 0
    requires IsLocations(loca.items, target.Text(), sep.Text()) && Spaced(target.Text(), sep.Text())
    ensures Describes(loca, target, sep, Split(target.Text(), sep.Text()))
    ensures |Split(target.Text(), sep.Text())| == |loca.items| + 1
  {
    SplitAtLocations(loca.items, target.Text(), sep.Text());
  }

  lemma AllStored(items: seq<SXString>, texts: seq<string>)
    requires Stored(items, texts, |texts|)
    ensures Carries(items, texts) && forall k :: 0 <= k < |items| ==> items[k].refCount == 1
  {
    assert texts[..|texts|] == texts;
  }

  /** src/SXVector.c:73-89 for a vector without a deallocator. */
  method ReleaseLocations(h: Heap, v: SXVector<int>)
    requires v.Blocks() <= h.live
    modifies h, v
    ensures v.refCount == Released(old(v.refCount)) && v.items == old(v.items)
    ensures h.live == if Frees(old(v.refCount)) then old(h.live) - old(v.Blocks()) else old(h.live)
  {
    if v.refCount != WEAK {
      v.refCount := v.refCount - 1;
      if v.refCount == 0 {
        h.Free(v.block);
        h.Free(v);
      }
    }
  }

  /** The blocks that dropping one reference from each string gives back. */
  ghost function DroppedBlocks(items: seq<SXString>): set<object>
    reads items
  {
    if items == [] then {}
    else
      var last := items[|items| - 1];
      DroppedBlocks(items[..|items| - 1]) + if Frees(last.refCount) then last.Blocks() else {}
  }

  lemma {:induction false} DroppedWithin(items: seq<SXString>)
    ensures DroppedBlocks(items) <= StringBlocks(items)
    ensures (forall k :: 0 <= k < |items| ==> items[k].refCount == 1) ==>
              DroppedBlocks(items) == StringBlocks(items)
  {
    if items != [] { DroppedWithin(items[..|items| - 1]); }
  }

  lemma {:induction false} ForeignBlocks(items: seq<SXString>, x: SXString)
    requires forall k :: 0 <= k < |items| ==> items[k] != x && items[k].chars != x.chars
    ensures StringBlocks(items) !! x.Blocks()
  {
    if items != [] {
      ForeignBlocks(items[..|items| - 1], x);
    }
  }

  lemma DroppedStep(items: seq<SXString>, i: nat)
    requires i < |items| && Apart(items)
    ensures DroppedBlocks(items[..i + 1])
         == DroppedBlocks(items[..i]) + if Frees(items[i].refCount) then items[i].Blocks() else {}
    ensures DroppedBlocks(items[..i]) !! items[i].Blocks()
    ensures items[i].Blocks() <= StringBlocks(items)
    ensures DroppedBlocks(items[..i]) + items[i].Blocks() <= StringBlocks(items)
  {
    assert items[..i + 1][..i] == items[..i];
    ForeignBlocks(items[..i], items[i]);
    DroppedWithin(items[..i]);
    InBlocks(items, i);
    PrefixBlocks(items, i);
  }

  lemma NothingDropped()
    ensures DroppedBlocks([]) == {}
  {
  }

  lemma ApartDistinct(items: seq<SXString>)
    requires Apart(items)
    ensures forall j, k :: 0 <= j < k < |items| ==> items[j] != items[k]
  {
  }

  lemma {:induction false} PrefixBlocks(items: seq<SXString>, i: nat)
    requires i <= |items|
    ensures StringBlocks(items[..i]) <= StringBlocks(items)
    decreases |items|
  {
    if i < |items| {
      PrefixBlocks(items[..|items| - 1], i);
      assert items[..|items| - 1][..i] == items[..i];
    } else {
      assert items[..i] == items;
    }
  }

  /** The deallocation loop (src/SXVector.c:84-85). The vector is still allocated while it is read. */
  method DropElements(h: Heap, v: SXVector<SXString>)
    requires Apart(v.items) && v.Blocks() + StringBlocks(v.items) <= h.live
    requires v.Blocks() !! StringBlocks(v.items)
    modifies h, v.items
    ensures forall k :: 0 <= k < |v.items| ==> v.items[k].refCount == Released(old(v.items[k].refCount))
    ensures forall k :: 0 <= k < |v.items| ==>
              v.items[k].chars == old(v.items[k].chars) && v.items[k].length == old(v.items[k].length)
    ensures h.live == old(h.live) - old(DroppedBlocks(v.items))
  {
    hide *;
    forall i: nat | i < |v.items|
      ensures DroppedBlocks(v.items[..i + 1]) == DroppedBlocks(v.items[..i])
              + if Frees(v.items[i].refCount) then v.items[i].Blocks() else {}
      ensures DroppedBlocks(v.items[..i]) !! v.items[i].Blocks()
      ensures v.items[i].Blocks() <= StringBlocks(v.items)
      ensures DroppedBlocks(v.items[..i]) + v.items[i].Blocks() <= StringBlocks(v.items)
    {
      DroppedStep(v.items, i);
    }
    NothingDropped();
    ApartDistinct(v.items);
    assert v.items[..0] == [] && v.items[..|v.items|] == v.items;
    for i := 0 to |v.items|
      invariant forall k :: i <= k < |v.items| ==> v.items[k].refCount == old(v.items[k].refCount)
      invariant forall k :: 0 <= k < i ==> v.items[k].refCount == Released(old(v.items[k].refCount))
      invariant forall k :: 0 <= k < |v.items| ==>
                  v.items[k].chars == old(v.items[k].chars) && v.items[k].length == old(v.items[k].length)
      invariant v.Blocks() <= h.live
      invariant h.live == old(h.live) - old(DroppedBlocks(v.items[..i]))
    {
      assert v.items[i].Blocks() == old(v.items[i].Blocks());
      ReleaseString(h, v.items[i]);
    }
  }

  /** src/SXVector.c:73-89 for a vector of strings: the last release of the vector drops one
      reference from each of its strings. */
  method ReleaseStrings(h: Heap, v: SXVector<SXString>)
    requires Apart(v.items) && v.Blocks() + StringBlocks(v.items) <= h.live
    requires v.Blocks() !! StringBlocks(v.items)
    modifies h, v, v.items
    ensures v.items == old(v.items) && v.refCount == Released(old(v.refCount))
    ensures forall k :: 0 <= k < |v.items| ==>
              v.items[k].chars == old(v.items[k].chars) && v.items[k].length == old(v.items[k].length)
    ensures forall k :: 0 <= k < |v.items| ==>
              v.items[k].refCount == if Frees(old(v.refCount)) then Released(old(v.items[k].refCount))
                                     else old(v.items[k].refCount)
    ensures h.live == if Frees(old(v.refCount))
                      then old(h.live) - old(v.Blocks()) - old(DroppedBlocks(v.items))
                      else old(h.live)
  {
    hide DroppedBlocks, StringBlocks, Apart;
    DroppedWithin(v.items);
    if v.refCount != WEAK {
      v.refCount := v.refCount - 1;
      if v.refCount == 0 {
        DropElements(h, v);
        h.Free(v.block);
        h.Free(v);
      }
    }
  }

  /** src/SXString.c:122-128: the separator given as a C string. */
  method SubStringsTrimmedByCString(h: Heap, target: SXString, trim: seq<char>, len: nat)
    returns (v: SXVector<SXString>)
    requires target.Blocks() <= h.live
    requires target.Valid() && 0 < len < |trim| && NUL !in trim[..len] && trim[len] == NUL
    requires !IsLocations([], target.Text(), trim[..len]) && Spaced(target.Text(), trim[..len])
    modifies h
    ensures fresh(v) && fresh(v.block) && v.refCount == 1
    ensures Carries(v.items, Split(target.Text(), trim[..len]))
    ensures forall k :: 0 <= k < |v.items| ==>
              fresh(v.items[k]) && fresh(v.items[k].chars) && v.items[k].refCount == 1
    ensures h.live == old(h.live) + v.Blocks() + StringBlocks(v.items)
    ensures old(h.live) !! v.Blocks() + StringBlocks(v.items) && v.Blocks() !! StringBlocks(v.items)
  {
    hide *;
    StrNLenIs(trim, len, len);
    var s := new SXString.FromCString(h, trim, len);
    TextLength(s);
    v := SubStringsTrimmedByString(h, target, s);
    FreesLast();
    ReleaseString(h, s);
  }
}
