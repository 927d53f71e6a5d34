/** The list of all occurrences that the search builds (src/SXString.c:54-69), and what the
    loops that walk it rely on. */
module Locations {
  import opened Splitting

  /** `ps` lists every occurrence of `t` that begins inside `s`, in increasing order. */
  ghost predicate IsLocations<T>(ps: seq<int>, s: seq<T>, t: seq<T>) {
    && (forall k :: 0 <= k < |ps| ==> 0 <= ps[k] < |s| && OccursAt(s, t, ps[k]))
    && (forall j, k :: 0 <= j < k < |ps| ==> ps[j] < ps[k])
    && (forall i: nat :: i < |s| && OccursAt(s, t, i) ==> i in ps)
  }

  /** Where the k-th piece begins and ends, as computed at src/SXString.c:100-110. */
  function Low<T>(ps: seq<int>, t: seq<T>, k: nat): int
    requires k <= |ps|
  {
    if k == 0 then 0 else ps[k - 1] + |t|
  }

  function High<T>(ps: seq<int>, s: seq<T>, k: nat): int
    requires k <= |ps|
  {
    if k == |ps| then |s| else ps[k]
  }

  lemma LowInside<T>(ps: seq<int>, s: seq<T>, t: seq<T>, k: nat)
    requires IsLocations(ps, s, t) && k <= |ps|
    ensures 0 <= Low(ps, t, k) <= |s|
  {
    if k > 0 { assert OccursAt(s, t, ps[k - 1]); }
  }

  /** Every piece has a non-negative length exactly when no two occurrences overlap. */
  lemma RangesSoundIffSpaced<T>(ps: seq<int>, s: seq<T>, t: seq<T>)
    requires IsLocations(ps, s, t) && t != []
    ensures (forall k :: 0 <= k <= |ps| ==> Low(ps, t, k) <= High(ps, s, k)) <==> Spaced(s, t)
  {
    if forall k :: 0 <= k <= |ps| ==> Low(ps, t, k) <= High(ps, s, k) {
      forall i: nat, j: nat | i < j && OccursAt(s, t, i) && OccursAt(s, t, j)
        ensures i + |t| <= j
      {
        var a :| 0 <= a < |ps| && ps[a] == i;
        var b :| 0 <= b < |ps| && ps[b] == j;
        assert Low(ps, t, a + 1) <= High(ps, s, a + 1);
      }
    }
    if Spaced(s, t) {
      forall k | 0 <= k <= |ps|
        ensures Low(ps, t, k) <= High(ps, s, k)
      {
        LowInside(ps, s, t, k);
      }
    }
  }

  lemma FirstIs<T>(u: seq<T>, t: seq<T>, f: nat)
    requires t != [] && f <= |u|
    requires forall i: nat :: i < f ==> !OccursAt(u, t, i)
    requires f < |u| ==> OccursAt(u, t, f)
    ensures First(u, t) == f
  {
  }

  /** No occurrence begins between the start of the k-th piece and the k-th location. */
  lemma FirstFromLow<T>(ps: seq<int>, s: seq<T>, t: seq<T>, k: nat)
    requires IsLocations(ps, s, t) && t != [] && Spaced(s, t) && k <= |ps|
    ensures 0 <= Low(ps, t, k) <= High(ps, s, k) <= |s|
    ensures First(s[Low(ps, t, k)..], t) == High(ps, s, k) - Low(ps, t, k)
  {
    LowInside(ps, s, t, k);
    RangesSoundIffSpaced(ps, s, t);
    var lo, hi := Low(ps, t, k), High(ps, s, k);
    assert lo <= hi;
    forall i: nat | i < hi - lo
      ensures !OccursAt(s[lo..], t, i)
    {
      assert lo + i !in ps;
      Shift(s, t, lo, i);
    }
    Shift(s, t, lo, hi - lo);
    FirstIs(s[lo..], t, hi - lo);
  }

  lemma SplitNone<T>(u: seq<T>, t: seq<T>)
    requires t != [] && First(u, t) == |u|
    ensures Split(u, t) == [u]
  {
  }

  lemma SplitStep<T>(s: seq<T>, t: seq<T>, lo: nat, hi: nat, u: seq<T>, v: seq<T>, piece: seq<T>)
    requires t != [] && lo <= hi < |s| && hi + |t| <= |s|
    requires u == s[lo..] && v == s[hi + |t|..] && piece == s[lo..hi]
    requires First(u, t) == hi - lo
    ensures Split(u, t) == [piece] + Split(v, t)
  {
    hide First;
    assert u[..hi - lo] == piece;
    assert u[hi - lo + |t|..] == v;
  }

  /** Splitting from the start of the k-th piece cuts it off. */
  lemma SplitOnce<T>(ps: seq<int>, s: seq<T>, t: seq<T>, k: nat, lo: int, hi: int)
    requires IsLocations(ps, s, t) && t != [] && Spaced(s, t) && k < |ps|
    requires lo == Low(ps, t, k) && hi == High(ps, s, k)
    ensures 0 <= lo <= hi && hi + |t| == Low(ps, t, k + 1) <= |s|
    ensures Split(s[lo..], t) == [s[lo..hi]] + Split(s[hi + |t|..], t)
  {
    FirstFromLow(ps, s, t, k);
    LowInside(ps, s, t, k + 1);
    SplitStep(s, t, lo, hi, s[lo..], s[hi + |t|..], s[lo..hi]);
  }

  /** From the k-th piece on, splitting reads off the remaining locations. */
  lemma {:induction false} SplitFrom<T>(ps: seq<int>, s: seq<T>, t: seq<T>, k: nat, j: nat, lo: int)
    requires IsLocations(ps, s, t) && t != [] && Spaced(s, t) && k <= j <= |ps|
    requires lo == Low(ps, t, k)
    ensures 0 <= lo <= |s| && |Split(s[lo..], t)| == |ps| - k + 1
    ensures 0 <= Low(ps, t, j) <= High(ps, s, j) <= |s|
    ensures Split(s[lo..], t)[j - k] == s[Low(ps, t, j)..High(ps, s, j)]
    decreases |ps| - k
  {
    hide Split, First;
    FirstFromLow(ps, s, t, k);
    if k == |ps| {
      SplitNone(s[lo..], t);
    } else {
      var hi := High(ps, s, k);
      SplitOnce(ps, s, t, k, lo, hi);
      SplitFrom(ps, s, t, k + 1, if j == k then k + 1 else j, hi + |t|);
    }
  }

  /** The pieces between consecutive locations are the pieces of the split. */
  lemma SplitAtLocations<T>(ps: seq<int>, s: seq<T>, t: seq<T>)
    requires IsLocations(ps, s, t) && t != [] && Spaced(s, t)
    ensures |Split(s, t)| == |ps| + 1
    ensures forall j: nat :: j <= |ps| ==>
              && 0 <= Low(ps, t, j) <= High(ps, s, j) <= |s|
              && Split(s, t)[j] == s[Low(ps, t, j)..High(ps, s, j)]
  {
    assert s[0..] == s;
    SplitFrom(ps, s, t, 0, 0, 0);
    forall j: nat | j <= |ps|
      ensures 0 <= Low(ps, t, j) <= High(ps, s, j) <= |s|
      ensures Split(s, t)[j] == s[Low(ps, t, j)..High(ps, s, j)]
    {
      SplitFrom(ps, s, t, 0, j, 0);
    }
  }

  /** `n` locations lie before the read cursor and the others do not. */
  ghost predicate Passed(ps: seq<int>, n: int, pos: int) {
    && 0 <= n <= |ps|
    && (forall k :: 0 <= k < n ==> ps[k] < pos)
    && (forall k :: n <= k < |ps| ==> pos <= ps[k])
  }

  /** The branch of the replace loop that meets a location. */
  lemma MeetLocation<T>(ps: seq<int>, s: seq<T>, t: seq<T>, r: seq<T>, n: int, pos: nat)
    requires IsLocations(ps, s, t) && t != [] && Spaced(s, t)
    requires Passed(ps, n, pos) && n < |ps| && ps[n] == pos
    ensures pos + |t| <= |s| && Passed(ps, n + 1, pos + |t|)
    ensures ReplaceAll(s[pos..], t, r) == r + ReplaceAll(s[pos + |t|..], t, r)
  {
    assert OccursAt(s, t, pos);
    assert s[pos..][..|t|] == t;
    assert s[pos..][|t|..] == s[pos + |t|..];
    forall k | n + 1 <= k < |ps|
      ensures pos + |t| <= ps[k]
    {
      assert OccursAt(s, t, ps[k]) && ps[n] < ps[k];
    }
  }

  /** The branch of the replace loop that copies one character. */
  lemma CopyCharacter<T>(ps: seq<int>, s: seq<T>, t: seq<T>, r: seq<T>, n: int, pos: nat)
    requires IsLocations(ps, s, t) && t != []
    requires Passed(ps, n, pos) && (n < |ps| ==> ps[n] != pos) && pos < |s|
    ensures Passed(ps, n, pos + 1)
    ensures ReplaceAll(s[pos..], t, r) == [s[pos]] + ReplaceAll(s[pos + 1..], t, r)
  {
    if n < |ps| {
      assert forall k :: n <= k < |ps| ==> ps[n] <= ps[k];
    }
    assert pos !in ps;
    assert !OccursAt(s, t, pos);
    Shift(s, t, pos, 0);
    assert s[pos..][1..] == s[pos + 1..];
  }
}
