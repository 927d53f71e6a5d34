/** Reference counts with the weak-object sentinel (src/sx_object.c:51-68; the same code is
    repeated for strings, vectors, queues and servers). */
module RefCounting {
  /** A count equal to this value marks an object that nobody counts. */
  const WEAK := 410

  function Retained(count: int): int {
    if count == WEAK then count else count + 1
  }

  function Released(count: int): int {
    if count == WEAK then count else count - 1
  }

  /** A release frees the object when it takes the count to zero. */
  predicate Frees(count: int) {
    count != WEAK && count - 1 == 0
  }

  lemma FreesLast()
    ensures Frees(1) && Released(1) == 0
  {
  }

  /** What `n` retains in a row make of a count. */
  function RetainedTimes(count: int, n: nat): int
    decreases n
  {
    if n == 0 then count else RetainedTimes(Retained(count), n - 1)
  }

  function ReleasedTimes(count: int, n: nat): int
    decreases n
  {
    if n == 0 then count else ReleasedTimes(Released(count), n - 1)
  }

  lemma {:induction false} RetainedTimesBelow(count: int, n: nat)
    ensures 0 < count < WEAK && count + n < WEAK ==> RetainedTimes(count, n) == count + n
    ensures 0 < count <= WEAK && count + n >= WEAK ==> RetainedTimes(count, n) == WEAK
    decreases n
  {
    if n > 0 { RetainedTimesBelow(Retained(count), n - 1); }
  }

  lemma {:induction false} ReleasedTimesBelow(count: int, n: nat)
    ensures count < WEAK ==> ReleasedTimes(count, n) == count - n
    ensures count == WEAK ==> ReleasedTimes(count, n) == WEAK
    decreases n
  {
    if n > 0 { ReleasedTimesBelow(Released(count), n - 1); }
  }

  /** Balanced retains and releases restore a count exactly when the retains never climb to the
      sentinel; once they do, no number of releases ever frees the object. */
  lemma BalancedIffBelowSentinel(count: int, n: nat)
    requires 0 < count < WEAK
    ensures ReleasedTimes(RetainedTimes(count, n), n) == count <==> count + n < 410
    ensures count + n >= WEAK ==>
              forall m: nat :: !Frees(ReleasedTimes(RetainedTimes(count, n), m))
  {
    RetainedTimesBelow(count, n);
    ReleasedTimesBelow(RetainedTimes(count, n), n);
    forall m: nat | count + n >= WEAK
      ensures !Frees(ReleasedTimes(RetainedTimes(count, n), m))
    {
      ReleasedTimesBelow(RetainedTimes(count, n), m);
    }
  }

  /** The common head of every object (src/sx_object.c:51-73); `deallocs` counts the calls of its
      own dealloc function. */
  class SXObject {
    var refCount: int
    ghost var deallocs: nat

    /** An object is counted down to nothing at most once. */
    ghost predicate Valid()
      reads this
    {
      if deallocs == 0 then refCount > 0 else deallocs == 1 && refCount == 0
    }

    constructor ()
      ensures Valid() && refCount == 1 && deallocs == 0
    {
      refCount, deallocs := 1, 0;
    }

    method Retain()
      requires Valid() && deallocs == 0
      modifies this`refCount
      ensures Valid() && refCount == Retained(old(refCount))
      ensures refCount == if old(refCount) == 410 then 410 else old(refCount) + 1
    {
      if refCount == WEAK {
        return;
      }
      refCount := refCount + 1;
    }

    method Release()
      requires Valid() && deallocs == 0
      modifies this
      ensures Valid() && refCount == Released(old(refCount))
      ensures refCount == if old(refCount) == 410 then 410 else old(refCount) - 1
      ensures deallocs == 1 <==> Frees(old(refCount))
    {
      if refCount == WEAK {
        return;
      }
      refCount := refCount - 1;
      if refCount == 0 {
        Free();
      }
    }

    method Free()
      modifies this`deallocs
      ensures deallocs == old(deallocs) + 1
    {
      deallocs := deallocs + 1;
    }
  }
}
