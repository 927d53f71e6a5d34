/** Removal in place, shrinking the string under the loop that searches it (src/SXString.c:228-245). */
module StringRemoving {
  import opened CMemory
  import opened Splitting
  import opened Strings

  /** Clears a range and moves what follows it down (src/SXString.c:229-230). */
  method ShiftDown(h: Heap, a: array<char>, length: nat, loca: nat, len: nat)
    requires a in h.live && loca + len <= length < a.Length
    modifies a
    ensures forall k :: 0 <= k < loca ==> a[k] == old(a[k])
    ensures forall k :: loca <= k < length - len ==> a[k] == old(a[k + len])
    ensures a[length] == old(a[length])
  {
    MemSet(h, a, loca, len);
    CopyDown(h, a, loca, loca + len, length - loca - len);
  }

  /** The three memory moves of src/SXString.c:229-232. */
  method CloseGap(h: Heap, a: array<char>, length: nat, loca: nat, len: nat)
    requires a in h.live && loca + len <= length < a.Length && a[length] == NUL
    modifies a
    ensures forall k :: 0 <= k < loca ==> a[k] == old(a[k])
    ensures forall k :: loca <= k < length - len ==> a[k] == old(a[k + len])
    ensures forall k :: length - len <= k <= length ==> a[k] == NUL
  {
    ShiftDown(h, a, length, loca, len);
    MemSet(h, a, length - len, len);
  }

  /** src/SXString.c:228-236, with the overlapping copy going from low to high addresses. */
  method RemovingRange(h: Heap, s: SXString, loca: nat, len: nat)
    requires s.Valid() && loca + len <= s.length && s.Blocks() <= h.live
    modifies h, s`chars, s`length, s.chars
    ensures s.Valid() && s.Text() == old(s.Text()[..loca] + s.Text()[loca + len..])
    ensures fresh(s.chars) && h.live == old(h.live) - {old(s.chars)} + {s.chars}
  {
    ghost var kept := s.Text()[..loca] + s.Text()[loca + len..];
    assert kept == s.chars[..loca] + s.chars[loca + len..s.length];
    assert NUL !in kept;
    CloseGap(h, s.chars, s.length, loca, len);
    assert forall k :: 0 <= k < |kept| ==> s.chars[k] == kept[k];
    StrNLenIs(s.chars[..], s.length, |kept|);
    s.length := StrNLen(h.Bytes(s.chars), s.length);
    s.chars := h.Realloc(s.chars, s.length + 1);
    assert s.chars[..|kept|] == kept;
  }

  /** The part of the text that the loop has still to look at. */
  function Ahead(text: string, i: nat): string {
    if i <= |text| then text[i..] else []
  }

  /** The part of the text that the loop will not look at again. */
  function Behind(text: string, i: nat): string {
    if i <= |text| then text[..i] else text
  }

  /** What the loop is to leave, seen from cursor position `i`. */
  function Outcome(text: string, t: string, i: nat): string {
    Behind(text, i) + RemoveSkipping(Ahead(text, i), t)
  }

  /** One round of the loop (src/SXString.c:241-244). `from` are the blocks that `remove` points
      into; they are still allocated when it is read. */
  method RemoveRound(h: Heap, s: SXString, remove: seq<char>, len: nat, i: nat, ghost from: set<object>)
    requires s.Valid() && s.Blocks() + from <= h.live && i < s.length
    requires len < |remove| && NUL !in remove[..len] && remove[len] == NUL
    modifies h, s`chars, s`length, s.chars
    ensures s.Valid() && s.length <= old(s.length)
    ensures Outcome(s.Text(), remove[..len], i + 1) == Outcome(old(s.Text()), remove[..len], i)
    ensures s.chars == old(s.chars) || fresh(s.chars)
    ensures h.live == old(h.live) - {old(s.chars)} + {s.chars}
  {
    hide *;
    TextLength(s);
    CompareIsOccursAt(s, remove, len, i);
    SkipStep(s.Text(), remove[..len], i);
    if SameUpTo(h.Bytes(s.chars)[i..], remove, len) {
      StrNLenIs(remove, len, len);
      RemovingRange(h, s, i, StrNLen(remove, len));
      TextLength(s);
    }
  }

  /** src/SXString.c:238-245: after a removal the loop moves on past the splice. Every removal gives
      the string's characters another block, so `remove` may not point into the string. */
  method RemoveOccurrenceOfCString(h: Heap, s: SXString, remove: seq<char>, len: nat, ghost from: set<object>)
    requires s.Valid() && s.Blocks() + from <= h.live && s.chars !in from
    requires len < |remove| && NUL !in remove[..len] && remove[len] == NUL
    modifies h, s`chars, s`length, s.chars
    ensures s.Valid() && s.Text() == RemoveSkipping(old(s.Text()), remove[..len])
    ensures s.chars == old(s.chars) || fresh(s.chars)
    ensures h.live == old(h.live) - {old(s.chars)} + {s.chars}
  {
    hide *;
    OwnBlocks(s);
    WholeOutcome(s.Text(), remove[..len], 0);
    var i := 0;
    while i < s.length
      invariant from <= h.live && s.chars !in from
      invariant s in h.live && s.Valid() && (s.chars == old(s.chars) || fresh(s.chars))
      invariant h.live == old(h.live) - {old(s.chars)} + {s.chars}
      invariant Outcome(s.Text(), remove[..len], i) == RemoveSkipping(old(s.Text()), remove[..len])
      decreases s.length - i
    {
      OwnBlocks(s);
      RemoveRound(h, s, remove, len, i, from);
      i := i + 1;
    }
    TextLength(s);
    WholeOutcome(s.Text(), remove[..len], i);
  }

  lemma WholeOutcome(text: string, t: string, i: nat)
    ensures i == 0 ==> Outcome(text, t, i) == RemoveSkipping(text, t)
    ensures i >= |text| ==> Outcome(text, t, i) == text
  {
    assert text[0..] == text && text[..|text|] == text;
  }

  /** One round, on the text: what is behind the cursor and what is ahead of it. */
  lemma SkipStep(text: string, t: string, i: nat)
    requires i < |text|
    ensures !OccursAt(text, t, i) ==> Outcome(text, t, i + 1) == Outcome(text, t, i)
    ensures OccursAt(text, t, i) ==>
              && i + |t| <= |text|
              && Outcome(text[..i] + text[i + |t|..], t, i + 1) == Outcome(text, t, i)
  {
    hide Outcome, RemoveSkipping;
    if OccursAt(text, t, i) {
      CutHere(text, t, i);
    } else {
      KeepHere(text, t, i);
    }
  }

  lemma CutHere(text: string, t: string, i: nat)
    requires i < |text| && OccursAt(text, t, i)
    ensures Outcome(text[..i] + text[i + |t|..], t, i + 1) == Outcome(text, t, i)
  {
    var before, after := text[..i], text[i + |t|..];
    var cut := before + after;
    assert t <= text[i..] && text[i..][|t|..] == after;
    if after == [] {
      assert cut == before && Ahead(cut, i + 1) == [];
    } else {
      assert Behind(cut, i + 1) == before + [after[0]];
      assert Ahead(cut, i + 1) == after[1..];
    }
  }

  lemma KeepHere(text: string, t: string, i: nat)
    requires i < |text| && !OccursAt(text, t, i)
    ensures Outcome(text, t, i + 1) == Outcome(text, t, i)
  {
    Shift(text, t, i, 0);
    assert text[i..][1..] == text[i + 1..];
    assert text[..i + 1] == text[..i] + [text[i]];
  }
}
