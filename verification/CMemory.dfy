/** The part of the C library that the string code uses. A heap records which blocks are
    allocated, and every read, write and free requires that its block is: a leak, a double free
    and a use after free show up in a contract. */
module CMemory {
  const NUL := '\0'

  /** A block of bytes whose contents are modelled elsewhere. */
  class Block {
    constructor () {}
  }

  class Heap {
    var live: set<object>

    constructor ()
      ensures live == {}
    {
      live := {};
    }

    /** Records a block that the caller has just allocated. */
    method Allocated(block: object)
      requires block !in live
      modifies this
      ensures live == old(live) + {block}
    {
      live := live + {block};
    }

    method Calloc(n: nat) returns (a: array<char>)
      modifies this
      ensures fresh(a) && a.Length == n && (forall i :: 0 <= i < n ==> a[i] == NUL)
      ensures a !in old(live) && live == old(live) + {a}
    {
      a := new char[n](_ => NUL);
      live := live + {a};
    }

    method Malloc() returns (b: Block)
      modifies this
      ensures fresh(b) && b !in old(live) && live == old(live) + {b}
    {
      b := new Block();
      live := live + {b};
    }

    /** A local array of a C function, live until that function leaves it. */
    method Automatic<T>(n: nat, zero: T) returns (a: array<T>)
      modifies this
      ensures fresh(a) && a.Length == n && (forall i :: 0 <= i < n ==> a[i] == zero)
      ensures a !in old(live) && live == old(live) + {a}
    {
      a := new T[n](_ => zero);
      live := live + {a};
    }

    method Leave(block: object)
      requires block in live
      modifies this
      ensures live == old(live) - {block}
    {
      live := live - {block};
    }

    /** What a pointer to an allocated block leads to. */
    function Bytes(a: array<char>): (s: seq<char>)
      reads this, a
      requires a in live
      ensures s == a[..]
    {
      a[..]
    }

    /** Only an allocated block can be freed. */
    method Free(block: object)
      requires block in live
      modifies this
      ensures live == old(live) - {block}
    {
      live := live - {block};
    }

    /** Moves the first min(n, |a|) bytes to a block of n bytes and frees the old one. */
    method Realloc(a: array<char>, n: nat) returns (b: array<char>)
      requires a in live
      modifies this
      ensures fresh(b) && b.Length == n
      ensures forall i :: 0 <= i < n && i < a.Length ==> b[i] == a[i]
      ensures live == old(live) - {a} + {b}
    {
      b := new char[n](i requires 0 <= i reads a => if i < a.Length then a[i] else NUL);
      live := live - {a} + {b};
    }
  }

  /** The length of the string in `mem`, at most `n`. */
  function StrNLen(mem: seq<char>, n: nat): (k: nat)
    requires n <= |mem| || NUL in mem
    ensures k <= n && k <= |mem|
    ensures forall i :: 0 <= i < k ==> mem[i] != NUL
    ensures k < n ==> k < |mem| && mem[k] == NUL
  {
    if n == 0 || mem[0] == NUL then 0 else 1 + StrNLen(mem[1..], n - 1)
  }

  lemma StrNLenIs(mem: seq<char>, n: nat, k: nat)
    requires n <= |mem| || NUL in mem
    requires k <= n && k <= |mem| && (forall i :: 0 <= i < k ==> mem[i] != NUL)
    requires k < n ==> k < |mem| && mem[k] == NUL
    ensures StrNLen(mem, n) == k
  {
  }

  /** strncmp(a, b, n) == 0: equal up to n bytes or up to a common terminator. */
  predicate SameUpTo(a: seq<char>, b: seq<char>, n: nat)
    decreases n
  {
    n == 0 ||
    (a != [] && b != [] && a[0] == b[0] && (a[0] == NUL || SameUpTo(a[1..], b[1..], n - 1)))
  }

  /** On a terminated string and a pattern without a terminator, strncmp tests for a prefix. */
  lemma {:induction false} SameUpToIsPrefix(x: seq<char>, junk: seq<char>, b: seq<char>, n: nat)
    requires n <= |b| && NUL !in x && NUL !in b[..n]
    ensures SameUpTo(x + [NUL] + junk, b, n) <==> b[..n] <= x
    decreases n
  {
    if n > 0 {
      assert b[0] in b[..n];
      if x != [] {
        assert (x + [NUL] + junk)[1..] == x[1..] + [NUL] + junk;
        assert b[..n][1..] == b[1..][..n - 1];
        SameUpToIsPrefix(x[1..], junk, b[1..], n - 1);
        if x[0] == b[0] {
          assert b[..n] == [b[0]] + b[1..][..n - 1];
          assert x == [x[0]] + x[1..];
        }
      }
    }
  }

  method MemSet(h: Heap, a: array<char>, at: nat, n: nat)
    requires a in h.live && at + n <= a.Length
    modifies a
    ensures forall i :: 0 <= i < a.Length ==> a[i] == if at <= i < at + n then NUL else old(a[i])
  {
    forall i | at <= i < at + n {
      a[i] := NUL;
    }
  }

  method MemCpy(h: Heap, a: array<char>, at: nat, src: seq<char>)
    requires a in h.live && at + |src| <= a.Length
    modifies a
    ensures forall i :: 0 <= i < a.Length ==>
              a[i] == if at <= i < at + |src| then src[i - at] else old(a[i])
  {
    forall i | at <= i < at + |src| {
      a[i] := src[i - at];
    }
  }

  /** Copies n bytes down within one block, lowest address first. The two ranges may overlap. */
  method CopyDown(h: Heap, a: array<char>, to: nat, from: nat, n: nat)
    requires a in h.live && to <= from && from + n <= a.Length
    modifies a
    ensures forall i :: 0 <= i < a.Length ==>
              a[i] == if to <= i < to + n then old(a[i - to + from]) else old(a[i])
  {
    var k := 0;
    while k < n
      invariant 0 <= k <= n
      invariant forall i :: 0 <= i < a.Length ==>
                  a[i] == if to <= i < to + k then old(a[i - to + from]) else old(a[i])
    {
      a[to + k] := a[from + k];
      k := k + 1;
    }
  }
}
