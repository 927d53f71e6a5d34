/** Reference definitions for searching, splitting, joining and replacing in a sequence.
    Nothing here mentions positions lists, cursors or buffers: the modules that model the
    repository's loops are proved against these definitions. */
module Splitting {

  /** `t` occurs in `s` at index `i`. */
  predicate OccursAt<T(==)>(s: seq<T>, t: seq<T>, i: nat) {
    i + |t| <= |s| && s[i..i + |t|] == t
  }

  /** `t` occurs nowhere in `s`. */
  ghost predicate Free<T>(s: seq<T>, t: seq<T>) {
    forall i: nat :: !OccursAt(s, t, i)
  }

  /** No two occurrences of `t` in `s` overlap. */
  ghost predicate Spaced<T>(s: seq<T>, t: seq<T>) {
    forall i: nat, j: nat :: i < j && OccursAt(s, t, i) && OccursAt(s, t, j) ==> i + |t| <= j
  }

  /** The occurrence at `i` is followed at once by another. */
  ghost predicate Touches<T>(s: seq<T>, t: seq<T>, i: nat) {
    OccursAt(s, t, i) && OccursAt(s, t, i + |t|)
  }

  /** Some occurrence of `t` in `s` begins exactly where another ends. */
  ghost predicate HasAdjacent<T>(s: seq<T>, t: seq<T>) {
    exists i: nat :: Touches(s, t, i)
  }

  /** The index of the first occurrence of `t` in `s`, or |s| when there is none. */
  function First<T(==)>(s: seq<T>, t: seq<T>): (k: nat)
    requires t != []
    ensures k <= |s|
    ensures k < |s| ==> OccursAt(s, t, k)
    ensures forall i: nat :: i < k ==> !OccursAt(s, t, i)
  {
    if s == [] || t <= s then 0
    else
      var k := First(s[1..], t);
      assert k < |s| - 1 ==> OccursAt(s, t, k + 1) by { Shift(s, t, 1, k); }
      assert forall i: nat :: i < k + 1 ==> !OccursAt(s, t, i) by {
        forall i: nat | i < k + 1
          ensures !OccursAt(s, t, i)
        {
          if i > 0 { Shift(s, t, 1, i - 1); }
        }
      }
      k + 1
  }

  /** The pieces of `s` between the occurrences of `t` met from left to right without overlap. */
  function Split<T(==)>(s: seq<T>, t: seq<T>): (ps: seq<seq<T>>)
    requires t != []
    ensures ps != []
    decreases |s|
  {
    var k := First(s, t);
    if k == |s| then [s] else [s[..k]] + Split(s[k + |t|..], t)
  }

  /** How many occurrences of `t` the left-to-right split cuts out. */
  function Cuts<T(==)>(s: seq<T>, t: seq<T>): nat
    requires t != []
  {
    |Split(s, t)| - 1
  }

  /** The pieces glued back together with `r` between neighbours. */
  function Join<T>(ps: seq<seq<T>>, r: seq<T>): seq<T>
    requires ps != []
  {
    if |ps| == 1 then ps[0] else ps[0] + r + Join(ps[1..], r)
  }

  /** Left-to-right replacement, one character at a time. */
  function ReplaceAll<T(==)>(s: seq<T>, t: seq<T>, r: seq<T>): seq<T>
    requires t != []
    decreases |s|
  {
    if s == [] then []
    else if t <= s then r + ReplaceAll(s[|t|..], t, r)
    else [s[0]] + ReplaceAll(s[1..], t, r)
  }

  /** Left-to-right removal that always keeps the character following a removed occurrence,
      whatever that character begins. */
  function RemoveSkipping<T(==)>(s: seq<T>, t: seq<T>): seq<T>
    decreases |s|
  {
    if s == [] then []
    else if t <= s then
      var rest := s[|t|..];
      if rest == [] then [] else [rest[0]] + RemoveSkipping(rest[1..], t)
    else [s[0]] + RemoveSkipping(s[1..], t)
  }

  /** A border is a proper non-empty prefix that is also a suffix. */
  ghost predicate Borderless<T>(t: seq<T>) {
    forall k: nat :: 0 < k < |t| ==> t[..k] != t[|t| - k..]
  }

  // ---- occurrences ----

  /** Looking for `t` in a suffix is looking for it further right in the whole. */
  lemma Shift<T>(s: seq<T>, t: seq<T>, a: nat, i: nat)
    requires a <= |s|
    ensures OccursAt(s[a..], t, i) == OccursAt(s, t, a + i)
  {
    if a + i + |t| <= |s| {
      assert s[a..][i..i + |t|] == s[a + i..a + i + |t|];
    }
  }

  lemma PrefixOccurs<T>(s: seq<T>, t: seq<T>)
    ensures t <= s <==> OccursAt(s, t, 0)
  {
  }

  /** An occurrence of `t` inside a slice of `s` is one of `s`. */
  lemma SliceOccurs<T>(s: seq<T>, t: seq<T>, a: nat, b: nat, i: nat)
    requires a <= b <= |s|
    ensures OccursAt(s[a..b], t, i) <==> a + i + |t| <= b && OccursAt(s, t, a + i)
  {
    if a + i + |t| <= b {
      var inner, outer := s[a..b][i..i + |t|], s[a + i..a + i + |t|];
      assert forall x :: 0 <= x < |t| ==> inner[x] == outer[x];
    }
  }

  lemma SuffixSpaced<T>(s: seq<T>, t: seq<T>, a: nat)
    requires a <= |s| && Spaced(s, t)
    ensures Spaced(s[a..], t)
  {
    forall i: nat, j: nat | i < j && OccursAt(s[a..], t, i) && OccursAt(s[a..], t, j)
      ensures i + |t| <= j
    {
      Shift(s, t, a, i);
      Shift(s, t, a, j);
    }
  }

  /** A separator overlaps itself in some string exactly when it has a border. */
  lemma SpacedEverywhereIffBorderless<T(!new)>(t: seq<T>)
    ensures Borderless(t) <==> forall s: seq<T> :: Spaced(s, t)
  {
    if Borderless(t) {
      forall s: seq<T>
        ensures Spaced(s, t)
      {
        BorderlessIsSpaced(s, t);
      }
    } else {
      var k: nat :| 0 < k < |t| && t[..k] == t[|t| - k..];
      BorderOverlaps(t, k);
    }
  }

  lemma BorderlessIsSpaced<T>(s: seq<T>, t: seq<T>)
    requires Borderless(t)
    ensures Spaced(s, t)
  {
    forall i: nat, j: nat | i < j && OccursAt(s, t, i) && OccursAt(s, t, j)
      ensures i + |t| <= j
    {
      if j < i + |t| {
        OverlapIsBorder(s, t, i, j);
      }
    }
  }

  lemma OverlapIsBorder<T>(s: seq<T>, t: seq<T>, i: nat, j: nat)
    requires OccursAt(s, t, i) && OccursAt(s, t, j) && i < j < i + |t|
    ensures t[..i + |t| - j] == t[j - i..]
  {
    assert s[i..i + |t|][j - i..] == s[j..i + |t|];
    assert s[j..j + |t|][..i + |t| - j] == s[j..i + |t|];
  }

  lemma BorderOverlaps<T>(t: seq<T>, k: nat)
    requires 0 < k < |t| && t[..k] == t[|t| - k..]
    ensures !Spaced(t + t[k..], t)
  {
    var s := t + t[k..];
    assert OccursAt(s, t, 0);
    assert s[|t| - k..] == t by {
      assert s[|t| - k..] == t[|t| - k..] + t[k..] == t[..k] + t[k..];
    }
    assert OccursAt(s, t, |t| - k);
  }

  // ---- splitting and joining ----

  lemma {:induction false} JoinSplit<T>(s: seq<T>, t: seq<T>)
    requires t != []
    ensures Join(Split(s, t), t) == s
    decreases |s|
  {
    var k := First(s, t);
    SplitFirst(s, t, k);
    hide First, Split, Join;
    if k < |s| {
      var rest := s[k + |t|..];
      JoinSplit(rest, t);
      JoinAtPiece(s[..k], Split(rest, t), t);
      assert s == s[..k] + s[k..k + |t|] + rest;
    } else {
      JoinOfOne(s, t);
    }
  }

  lemma SplitFirst<T>(s: seq<T>, t: seq<T>, k: nat)
    requires t != [] && k == First(s, t)
    ensures k == |s| ==> Split(s, t) == [s]
    ensures k < |s| ==> k + |t| <= |s| && s[k..k + |t|] == t && Split(s, t) == [s[..k]] + Split(s[k + |t|..], t)
  {
    assert k < |s| ==> OccursAt(s, t, k);
    hide First;
  }

  lemma JoinOfOne<T>(piece: seq<T>, r: seq<T>)
    ensures Join([piece], r) == piece
  {
  }

  lemma JoinAtPiece<T>(piece: seq<T>, ps: seq<seq<T>>, r: seq<T>)
    requires ps != []
    ensures Join([piece] + ps, r) == piece + r + Join(ps, r)
  {
    assert ([piece] + ps)[1..] == ps;
  }

  lemma {:induction false} SplitPiecesFree<T>(s: seq<T>, t: seq<T>)
    requires t != []
    ensures forall i :: 0 <= i < |Split(s, t)| ==> Free(Split(s, t)[i], t)
    decreases |s|
  {
    var k := First(s, t);
    if k == |s| {
      assert Free(s, t);
    } else {
      SplitPiecesFree(s[k + |t|..], t);
      forall i: nat
        ensures !OccursAt(s[..k], t, i)
      {
        SliceOccurs(s, t, 0, k, i);
      }
    }
  }

  /** Where occurrences do not overlap, the separator-free decomposition is unique. */
  lemma {:induction false} SplitUnique<T>(s: seq<T>, t: seq<T>, qs: seq<seq<T>>)
    requires t != [] && Spaced(s, t)
    requires qs != [] && Join(qs, t) == s
    requires forall i :: 0 <= i < |qs| ==> Free(qs[i], t)
    ensures qs == Split(s, t)
    decreases |qs|
  {
    var k := First(s, t);
    SplitFirst(s, t, k);
    hide Split, Spaced;
    if |qs| == 1 {
      assert s == qs[0];
      assert k == |s|;
    } else {
      var tail := Join(qs[1..], t);
      var c := |qs[0]|;
      assert s[c..c + |t|] == t;
      assert OccursAt(s, t, c);
      assert s[0..c] == qs[0];
      SliceOccurs(s, t, 0, c, k);
      assert !OccursAt(qs[0], t, k);
      assert k == c;
      assert s[k + |t|..] == tail;
      SuffixSpaced(s, t, k + |t|);
      SplitUnique(tail, t, qs[1..]);
      assert qs == [qs[0]] + qs[1..];
    }
  }

  lemma SplitAtPrefix<T>(s: seq<T>, t: seq<T>)
    requires t != [] && t <= s
    ensures Split(s, t) == [[]] + Split(s[|t|..], t)
  {
    assert First(s, t) == 0;
  }

  lemma SplitAtOther<T>(s: seq<T>, t: seq<T>)
    requires t != [] && s != [] && !(t <= s)
    ensures Split(s, t) == [[s[0]] + Split(s[1..], t)[0]] + Split(s[1..], t)[1..]
  {
    var k := First(s[1..], t);
    assert First(s, t) == k + 1;
    if k < |s| - 1 {
      assert s[..k + 1] == [s[0]] + s[1..][..k];
      assert s[k + 1 + |t|..] == s[1..][k + |t|..];
      assert Split(s[1..], t) == [s[1..][..k]] + Split(s[1..][k + |t|..], t);
    } else {
      assert s == [s[0]] + s[1..];
    }
  }

  lemma JoinAtPrefix<T>(ps: seq<seq<T>>, r: seq<T>)
    requires ps != []
    ensures Join([[]] + ps, r) == r + Join(ps, r)
  {
    assert ([[]] + ps)[1..] == ps;
  }

  lemma JoinAtOther<T>(c: T, ps: seq<seq<T>>, r: seq<T>)
    requires ps != []
    ensures Join([[c] + ps[0]] + ps[1..], r) == [c] + Join(ps, r)
  {
    var qs := [[c] + ps[0]] + ps[1..];
    if |ps| > 1 {
      assert qs[1..] == ps[1..];
      assert Join(qs, r) == ([c] + ps[0]) + r + Join(ps[1..], r);
    }
  }

  /** Replacing is splitting and joining with something else. */
  lemma {:induction false} ReplaceIsJoinSplit<T>(s: seq<T>, t: seq<T>, r: seq<T>)
    requires t != []
    ensures ReplaceAll(s, t, r) == Join(Split(s, t), r)
    decreases |s|
  {
    if s == [] {
    } else if t <= s {
      ReplaceIsJoinSplit(s[|t|..], t, r);
      SplitAtPrefix(s, t);
      JoinAtPrefix(Split(s[|t|..], t), r);
    } else {
      ReplaceIsJoinSplit(s[1..], t, r);
      SplitAtOther(s, t);
      JoinAtOther(s[0], Split(s[1..], t), r);
    }
  }

  /** The length of a replaced string, from the number of cuts. */
  lemma {:induction false} ReplacedLength<T>(s: seq<T>, t: seq<T>, r: seq<T>)
    requires t != []
    ensures |ReplaceAll(s, t, r)| == |s| + Cuts(s, t) * |r| - Cuts(s, t) * |t|
    ensures Cuts(s, t) * |t| <= |s|
    decreases |s|
  {
    if s == [] {
    } else {
      hide ReplaceAll, Split;
      if t <= s {
        ReplacedLength(s[|t|..], t, r);
        ReplaceAtPrefix(s, t, r);
        SplitAtPrefix(s, t);
        TimesSucc(Cuts(s[|t|..], t), |r|);
        TimesSucc(Cuts(s[|t|..], t), |t|);
      } else {
        ReplacedLength(s[1..], t, r);
        ReplaceAtOther(s, t, r);
        SplitAtOther(s, t);
      }
    }
  }

  lemma TimesSucc(m: int, x: int)
    ensures (m + 1) * x == m * x + x
  {
  }

  lemma ReplaceAtPrefix<T>(s: seq<T>, t: seq<T>, r: seq<T>)
    requires t != [] && t <= s
    ensures ReplaceAll(s, t, r) == r + ReplaceAll(s[|t|..], t, r)
  {
  }

  lemma ReplaceAtOther<T>(s: seq<T>, t: seq<T>, r: seq<T>)
    requires t != [] && s != [] && !(t <= s)
    ensures ReplaceAll(s, t, r) == [s[0]] + ReplaceAll(s[1..], t, r)
  {
  }

  /** `r` undoes the replacement of `t` in `s`, and cuts the output where `t` cut the input. */
  ghost predicate Undone<T>(s: seq<T>, t: seq<T>, r: seq<T>)
    requires t != [] && r != []
  {
    var out := ReplaceAll(s, t, r);
    ReplaceAll(out, r, t) == s && Split(out, r) == Split(s, t)
  }

  lemma UndoneAtPrefix<T>(s: seq<T>, t: seq<T>, r: seq<T>)
    requires t != [] && r != [] && t <= s && Undone(s[|t|..], t, r)
    ensures Undone(s, t, r)
  {
    hide ReplaceAll, Split;
    var out, tail := ReplaceAll(s, t, r), ReplaceAll(s[|t|..], t, r);
    ReplaceAtPrefix(s, t, r);
    assert r <= out && out[|r|..] == tail;
    ReplaceAtPrefix(out, r, t);
    SplitAtPrefix(s, t);
    SplitAtPrefix(out, r);
    assert s == t + s[|t|..];
  }

  lemma UndoneAtOther<T>(s: seq<T>, t: seq<T>, r: seq<T>)
    requires t != [] && r != [] && s != [] && !(t <= s) && r[0] != s[0] && Undone(s[1..], t, r)
    ensures Undone(s, t, r)
  {
    hide ReplaceAll, Split;
    var out, tail := ReplaceAll(s, t, r), ReplaceAll(s[1..], t, r);
    ReplaceAtOther(s, t, r);
    assert out[0] == s[0] && out[1..] == tail;
    assert !(r <= out);
    ReplaceAtOther(out, r, t);
    SplitAtOther(s, t);
    SplitAtOther(out, r);
    assert s == [s[0]] + s[1..];
  }

  /** Replacing `t` by a fresh marker `r` and the marker by `t` gives the string back, and the
      marker cuts the output exactly where `t` cut the input. */
  lemma {:induction false} ReplaceInvertible<T>(s: seq<T>, t: seq<T>, r: seq<T>)
    requires t != [] && r != []
    requires forall c :: c in r ==> c !in s
    ensures ReplaceAll(ReplaceAll(s, t, r), r, t) == s
    ensures Split(ReplaceAll(s, t, r), r) == Split(s, t)
    decreases |s|
  {
    if s == [] {
    } else {
      hide ReplaceAll, Split;
      if t <= s {
        ReplaceInvertible(s[|t|..], t, r);
        UndoneAtPrefix(s, t, r);
      } else {
        ReplaceInvertible(s[1..], t, r);
        assert r[0] in r;
        UndoneAtOther(s, t, r);
      }
    }
  }

  /** A replaced string holds the new text and what was kept, nothing else. */
  lemma {:induction false} ReplacedChars<T>(s: seq<T>, t: seq<T>, r: seq<T>, c: T)
    requires t != [] && c in ReplaceAll(s, t, r)
    ensures c in s || c in r
    decreases |s|
  {
    if s == [] {
    } else if t <= s {
      if c !in r { ReplacedChars(s[|t|..], t, r, c); }
    } else if c != s[0] {
      ReplacedChars(s[1..], t, r, c);
    }
  }

  // ---- removal ----

  lemma ShiftTouches<T>(s: seq<T>, t: seq<T>, a: nat, i: nat)
    requires a <= |s|
    ensures Touches(s[a..], t, i) == Touches(s, t, a + i)
  {
    Shift(s, t, a, i);
    Shift(s, t, a, i + |t|);
  }

  lemma SuffixAdjacent<T>(s: seq<T>, t: seq<T>, a: nat)
    requires a <= |s| && HasAdjacent(s[a..], t)
    ensures HasAdjacent(s, t)
  {
    var i: nat :| Touches(s[a..], t, i);
    ShiftTouches(s, t, a, i);
  }

  /** Skipping past each splice loses nothing when no occurrence begins where another ends. */
  lemma {:induction false} SkippingIsReplacing<T>(s: seq<T>, t: seq<T>)
    requires t != [] && !HasAdjacent(s, t)
    ensures RemoveSkipping(s, t) == ReplaceAll(s, t, [])
    decreases |s|
  {
    if s == [] {
    } else if t <= s {
      var rest := s[|t|..];
      Shift(s, t, |t|, 0);
      assert OccursAt(s, t, 0);
      assert !Touches(s, t, 0);
      assert !(t <= rest);
      if rest != [] {
        assert rest[1..] == s[|t| + 1..];
        if HasAdjacent(rest[1..], t) { SuffixAdjacent(s, t, |t| + 1); }
        SkippingIsReplacing(rest[1..], t);
      }
    } else {
      if HasAdjacent(s[1..], t) { SuffixAdjacent(s, t, 1); }
      SkippingIsReplacing(s[1..], t);
    }
  }

  /** With no overlaps, replacement copies an occurrence that it meets half-way through. */
  lemma {:induction false} HalfwayThrough<T>(u: seq<T>, t: seq<T>, k: nat)
    requires t <= u && Spaced(u, t) && 0 < k <= |t|
    ensures |ReplaceAll(u[k..], t, [])| == |t| - k + |ReplaceAll(u[|t|..], t, [])|
    decreases |t| - k
  {
    if k < |t| {
      Shift(u, t, k, 0);
      assert OccursAt(u, t, 0);
      assert !(t <= u[k..]);
      assert u[k..][1..] == u[k + 1..];
      HalfwayThrough(u, t, k + 1);
    }
  }

  /** One removal, seen by both: what follows the cut is skipped by one and read by the other. */
  lemma AfterCut<T>(s: seq<T>, t: seq<T>)
    requires t != [] && t <= s && Spaced(s, t) && |t| < |s|
    ensures |RemoveSkipping(s, t)| == 1 + |RemoveSkipping(s[|t| + 1..], t)|
    ensures |ReplaceAll(s, t, [])|
         <= |ReplaceAll(s[|t| + 1..], t, [])| + if t <= s[|t|..] then 0 else 1
  {
    var rest := s[|t|..];
    assert rest[1..] == s[|t| + 1..];
    if t <= rest {
      SuffixSpaced(s, t, |t|);
      HalfwayThrough(rest, t, 1);
    }
  }

  lemma AdjacentInTail<T>(s: seq<T>, t: seq<T>)
    requires t != [] && s != [] && !(t <= s) && HasAdjacent(s, t)
    ensures HasAdjacent(s[1..], t)
  {
    var i: nat :| Touches(s, t, i);
    assert i != 0;
    ShiftTouches(s, t, 1, i - 1);
  }

  /** Skipping never removes more than replacing, and strictly less after an adjacent pair. */
  lemma {:induction false} SkippingRemovesLess<T>(s: seq<T>, t: seq<T>)
    requires t != [] && Spaced(s, t)
    ensures |RemoveSkipping(s, t)| >= |ReplaceAll(s, t, [])|
    ensures HasAdjacent(s, t) ==> |RemoveSkipping(s, t)| > |ReplaceAll(s, t, [])|
    decreases |s|
  {
    if s == [] {
    } else if t <= s {
      if |t| < |s| {
        SuffixSpaced(s, t, |t| + 1);
        SkippingRemovesLess(s[|t| + 1..], t);
        AfterCut(s, t);
        if !(t <= s[|t|..]) { AdjacentLater(s, t); }
      } else {
        assert !HasAdjacent(s, t);
      }
    } else {
      SuffixSpaced(s, t, 1);
      SkippingRemovesLess(s[1..], t);
      if HasAdjacent(s, t) { AdjacentInTail(s, t); }
    }
  }

  lemma AdjacentLater<T>(s: seq<T>, t: seq<T>)
    requires t != [] && t <= s && Spaced(s, t) && |t| < |s| && !(t <= s[|t|..])
    ensures HasAdjacent(s, t) ==> HasAdjacent(s[|t| + 1..], t)
  {
    if HasAdjacent(s, t) {
      var i: nat :| Touches(s, t, i);
      PrefixOccurs(s, t);
      PrefixOccurs(s[|t|..], t);
      Shift(s, t, |t|, 0);
      hide OccursAt;
      assert OccursAt(s, t, 0) && !OccursAt(s, t, |t|);
      assert i > |t|;
      ShiftTouches(s, t, |t| + 1, i - |t| - 1);
    }
  }

  /** Removing in place agrees with replacing by nothing exactly when no two occurrences touch. */
  lemma SkippingIsReplacingIff<T>(s: seq<T>, t: seq<T>)
    requires t != [] && Spaced(s, t)
    ensures RemoveSkipping(s, t) == ReplaceAll(s, t, []) <==> !HasAdjacent(s, t)
  {
    if HasAdjacent(s, t) {
      SkippingRemovesLess(s, t);
    } else {
      SkippingIsReplacing(s, t);
    }
  }

  // ---- texts built around a separator ----

  lemma OccursBetween<T>(x: seq<T>, t: seq<T>, y: seq<T>)
    ensures OccursAt(x + t + y, t, |x|)
  {
    assert (x + t + y)[|x|..|x| + |t|] == t;
  }

  /** A separator without a border is first met where it was put. */
  lemma FirstSeparator<T>(x: seq<T>, t: seq<T>, y: seq<T>)
    requires t != [] && Borderless(t) && Free(x, t)
    ensures First(x + t + y, t) == |x|
  {
    var s := x + t + y;
    OccursBetween(x, t, y);
    BorderlessIsSpaced(s, t);
    forall i: nat | i < |x|
      ensures !OccursAt(s, t, i)
    {
      SliceOccurs(s, t, 0, |x|, i);
      assert s[0..|x|] == x;
      assert !OccursAt(x, t, i);
    }
  }

  /** Splitting off what comes before the first separator. */
  lemma SplitHead<T>(x: seq<T>, t: seq<T>, y: seq<T>)
    requires t != [] && First(x + t + y, t) == |x|
    ensures Split(x + t + y, t) == [x] + Split(y, t)
  {
    var s := x + t + y;
    assert s[..|x|] == x && s[|x| + |t|..] == y;
  }

  lemma SplitFree<T>(s: seq<T>, t: seq<T>)
    requires t != [] && Free(s, t)
    ensures Split(s, t) == [s]
  {
    assert First(s, t) == |s|;
  }

  /** `t` occurs in x t y only between x and y. */
  ghost predicate OccursOnce<T>(x: seq<T>, t: seq<T>, y: seq<T>) {
    forall i: nat :: OccursAt(x + t + y, t, i) ==> i == |x|
  }

  lemma ReplaceOnce<T>(x: seq<T>, t: seq<T>, y: seq<T>, r: seq<T>)
    requires t != [] && OccursOnce(x, t, y)
    ensures ReplaceAll(x + t + y, t, r) == x + r + y
    ensures Spaced(x + t + y, t) && !HasAdjacent(x + t + y, t)
  {
    var s := x + t + y;
    OccursBetween(x, t, y);
    assert First(s, t) == |x|;
    SplitHead(x, t, y);
    forall i: nat
      ensures !OccursAt(y, t, i)
    {
      assert s[|x| + |t|..] == y;
      Shift(s, t, |x| + |t|, i);
    }
    SplitFree(y, t);
    ReplaceIsJoinSplit(s, t, r);
    assert [x, y][1..] == [y];
    assert Join([x, y], r) == x + r + y;
  }

  /** Removal with skipping leaves a string without an occurrence alone and shortens every other. */
  lemma {:induction false} SkippingShrinks<T>(s: seq<T>, t: seq<T>)
    requires t != []
    ensures Free(s, t) ==> RemoveSkipping(s, t) == s
    ensures !Free(s, t) ==> |RemoveSkipping(s, t)| < |s|
    decreases |s|
  {
    if s != [] {
      PrefixOccurs(s, t);
      if t <= s {
        var rest := s[|t|..];
        if rest != [] { SkippingShrinks(rest[1..], t); }
      } else {
        SkippingShrinks(s[1..], t);
        TailFree(s, t);
      }
    }
  }

  lemma TailFree<T>(s: seq<T>, t: seq<T>)
    requires s != [] && !OccursAt(s, t, 0)
    ensures Free(s, t) <==> Free(s[1..], t)
  {
    forall i: nat
      ensures OccursAt(s[1..], t, i) <==> OccursAt(s, t, i + 1)
    {
      Shift(s, t, 1, i);
    }
    if Free(s[1..], t) {
      forall i: nat
        ensures !OccursAt(s, t, i)
      {
        if i > 0 { assert !OccursAt(s[1..], t, i - 1); }
      }
    }
  }

  /** How many characters the removal passes to keep the next one. */
  function Stride<T(==)>(s: seq<T>, t: seq<T>): nat {
    if t <= s then |t| + 1 else 1
  }

  lemma SkippingStep<T>(s: seq<T>, t: seq<T>, d: nat)
    requires d == Stride(s, t) <= |s|
    ensures RemoveSkipping(s, t) == [s[d - 1]] + RemoveSkipping(s[d..], t)
  {
    if t <= s {
      assert s[|t|..][0] == s[d - 1] && s[|t|..][1..] == s[d..];
    }
  }

  /** The stride to or before a character outside the pattern does not depend on what follows it. */
  lemma StrideWithin<T>(s: seq<T>, t: seq<T>, k: nat)
    requires k < |s| && s[k] !in t
    ensures Stride(s, t) <= k + 1 && Stride(s[..k + 1], t) == Stride(s, t)
  {
    if |t| > k {
      assert t[k] in t;
    } else if t <= s {
      assert t == s[..k + 1][..|t|];
    }
  }

  /** A character outside the pattern divides the work of the removal. */
  lemma {:induction false} SkippingDivides<T>(s: seq<T>, t: seq<T>, k: nat)
    requires t != [] && k < |s| && s[k] !in t
    ensures RemoveSkipping(s, t) == RemoveSkipping(s[..k + 1], t) + RemoveSkipping(s[k + 1..], t)
    decreases k
  {
    hide RemoveSkipping, Stride;
    var d, u, z := Stride(s, t), s[..k + 1], s[k + 1..];
    StrideWithin(s, t, k);
    SkippingStep(s, t, d);
    SkippingStep(u, t, d);
    NothingToSkip(t);
    var v := s[d..];
    assert u[d - 1] == s[d - 1];
    if d == k + 1 {
      assert v == z && u[d..] == [];
    } else {
      SkippingDivides(v, t, k - d);
      SlicesOfSlice(s, d, k + 1);
    }
  }

  lemma NothingToSkip<T>(t: seq<T>)
    ensures RemoveSkipping([], t) == []
  {
  }

  lemma SlicesOfSlice<T>(s: seq<T>, a: nat, b: nat)
    requires a <= b <= |s|
    ensures s[a..][..b - a] == s[..b][a..] && s[a..][b - a..] == s[b..]
  {
  }

  /** Removing `t` from x c t y leaves x c y if and only if `t` occurs neither in x nor in y after
      its first character, the one that the removal skips. */
  lemma RemovedOnceIff<T>(x: seq<T>, c: T, t: seq<T>, y: seq<T>)
    requires t != [] && c !in t
    ensures RemoveSkipping(x + [c] + (t + y), t) == x + [c] + y
       <==> Free(x, t) && (y == [] || Free(y[1..], t))
  {
    var s, u := x + [c] + (t + y), x + [c];
    assert s[..|x| + 1] == u && s[|x| + 1..] == t + y;
    SkippingDivides(s, t, |x|);
    SkippingShrinks(u, t);
    FreeBefore(x, c, t);
    RemovedFirstIff(t, y);
    hide RemoveSkipping, Free;
    SameParts(RemoveSkipping(u, t), RemoveSkipping(t + y, t), u, y);
  }

  lemma RemovedFirstIff<T>(t: seq<T>, y: seq<T>)
    requires t != []
    ensures |RemoveSkipping(t + y, t)| <= |y|
    ensures RemoveSkipping(t + y, t) == y <==> y == [] || Free(y[1..], t)
  {
    assert (t + y)[|t|..] == y;
    if y != [] {
      SkippingShrinks(y[1..], t);
      assert y == [y[0]] + y[1..];
      hide Free;
      SameParts([y[0]], RemoveSkipping(y[1..], t), [y[0]], y[1..]);
    }
  }

  lemma FreeBefore<T>(x: seq<T>, c: T, t: seq<T>)
    requires t != [] && c !in t
    ensures Free(x + [c], t) <==> Free(x, t)
  {
    forall i: nat
      ensures OccursAt(x + [c], t, i) <==> OccursAt(x, t, i)
    {
      if i + |t| == |x| + 1 {
        assert (x + [c])[i..i + |t|][|t| - 1] == c;
        assert t[|t| - 1] in t;
      } else if i + |t| <= |x| {
        assert (x + [c])[i..i + |t|] == x[i..i + |t|];
      }
    }
  }

  lemma SameParts<T>(a: seq<T>, b: seq<T>, c: seq<T>, d: seq<T>)
    requires |a| <= |c| && |b| <= |d|
    ensures a + b == c + d <==> a == c && b == d
  {
    if a + b == c + d {
      assert |a| == |c|;
      assert (a + b)[..|a|] == a && (c + d)[..|c|] == c;
      assert (a + b)[|a|..] == b && (c + d)[|c|..] == d;
    }
  }
}
