/** The Kernighan and Ritchie storage allocator of user/umalloc.c (section 8.7 of The C
    Programming Language, 2nd edition).

    Addresses count Header units, so the pointer arithmetic of the source is addition. The
    free list is a circular list threaded through the headers in memory; ghost fields keep
    the list as a sequence, the set of live blocks, and for every unit obtained from sbrk
    the block that owns it. Because `own` is a function on units, blocks cannot overlap and
    no unit can be lost or counted twice. */
module Umalloc {

  const HEADER: nat := 16                // sizeof(Header)
  const NALLOC: nat := 4096              // least number of units to ask sbrk for
  const INT_LIMIT: nat := 0x8000_0000    // 2^31

  /** Units needed for `nbytes` of payload: rounded up, plus the header. */
  function Nunits(nbytes: nat): nat {
    (nbytes + HEADER - 1) / HEADER + 1
  }

  /** Units `morecore` asks for. */
  function Ask(nu: nat): nat {
    if nu < NALLOC then NALLOC else nu
  }

  /** sbrk takes an int: the byte count is truncated to 32 bits, signed. */
  function Int32(n: nat): int {
    var low := n % 0x1_0000_0000;
    if low < INT_LIMIT then low else low - 0x1_0000_0000
  }

  /** The break after sbrk of `bytes`. A negative count larger than the process wraps round
      in the kernel and leaves the size as it was. */
  function NewBrk(brk: nat, bytes: int): nat {
    var to := brk * HEADER + bytes;
    if to < 0 then brk else to / HEADER
  }

  /** Does the request for `nbytes` fit sbrk's int? */
  predicate Fits(nbytes: nat) { nbytes <= INT_LIMIT - 32 }

  /** Sbrk is asked for exactly the bytes of the block `morecore` then writes a header for
      if and only if `nbytes` is at most 2^31 - 32. */
  lemma RequestExact(nbytes: nat)
    requires nbytes < 0x1_0000_0000
    ensures Int32(Ask(Nunits(nbytes)) * HEADER) == Ask(Nunits(nbytes)) * HEADER <==> Fits(nbytes)
  {
  }

  /** Up to 2^32 - 32 bytes the request that does not fit comes out negative: sbrk takes
      memory away, or none if there is less than that. The header goes past the break. */
  lemma {:induction false} RequestNegative(nbytes: nat, brk: nat)
    requires !Fits(nbytes) && nbytes <= 0x1_0000_0000 - 32
    ensures var n := Nunits(nbytes);
            Ask(n) == n && Int32(n * HEADER) == n * HEADER - 0x1_0000_0000 < 0 && NewBrk(brk, Int32(n * HEADER)) <= brk
  {
    var n := Nunits(nbytes);
    assert INT_LIMIT <= n * HEADER < 0x1_0000_0000;
  }

  /** Above that the request comes out as 0 or 16 bytes for a header of 2^28 units or more:
      at most the header itself is inside the process. */
  lemma {:induction false} RequestTiny(nbytes: nat, brk: nat)
    requires 0x1_0000_0000 - 32 < nbytes < 0x1_0000_0000
    ensures var n := Nunits(nbytes);
            && Ask(n) == n && n >= 0x1000_0000
            && (Int32(n * HEADER) == if nbytes <= 0x1_0000_0000 - 16 then 0 else HEADER)
            && NewBrk(brk, Int32(n * HEADER)) <= brk + 1
  {
    var n := Nunits(nbytes);
    assert n * HEADER == if nbytes <= 0x1_0000_0000 - 16 then 0x1_0000_0000 else 0x1_0000_0000 + HEADER;
  }

  /** The break ends up past the new block exactly when the request fits. */
  lemma {:induction false} BreakPast(nbytes: nat, brk: nat)
    requires nbytes < 0x1_0000_0000
    ensures var n := Ask(Nunits(nbytes));
            && (brk + n <= NewBrk(brk, Int32(n * HEADER)) <==> Fits(nbytes))
            && (Fits(nbytes) ==> NewBrk(brk, Int32(n * HEADER)) == brk + n)
  {
    RequestExact(nbytes);
    if 0x1_0000_0000 - 32 < nbytes {
      RequestTiny(nbytes, brk);
    } else if !Fits(nbytes) {
      RequestNegative(nbytes, brk);
    }
  }

  // ---------------------------------------------------------------- the free list

  /** Index of the successor in a circular list of length `n`. */
  function Succ(i: nat, n: nat): nat {
    if i + 1 < n then i + 1 else 0
  }

  /** Steps from index `i` forward to index `j` around a circle of `n`. */
  function Dist(i: nat, j: nat, n: nat): nat
    requires i < n && j < n
  {
    if i <= j then j - i else n - i + j
  }

  ghost predicate Sorted(fl: seq<nat>) {
    forall i, j :: 0 <= i < j < |fl| ==> fl[i] < fl[j]
  }

  ghost predicate LinkAt(fl: seq<nat>, ptr: map<nat, nat>, i: nat)
    requires i < |fl|
  {
    fl[i] in ptr && ptr[fl[i]] == fl[Succ(i, |fl|)]
  }

  /** `ptr` links the blocks of `fl`, in address order, into one cycle starting at base. */
  ghost predicate Chain(base: nat, fl: seq<nat>, ptr: map<nat, nat>) {
    && fl != [] && fl[0] == base && Sorted(fl)
    && forall i :: 0 <= i < |fl| ==> LinkAt(fl, ptr, i)
  }

  /** Block `b` owns exactly its `size[b]` units. */
  ghost predicate Block(b: nat, size: map<nat, nat>, own: map<nat, nat>) {
    b in size && size[b] >= 1 && forall x :: b <= x < b + size[b] ==> x in own && own[x] == b
  }

  /** Every obtained unit belongs to exactly one block, free or live, and lies inside it. */
  ghost predicate TiledBody(base: nat, free: set<nat>, live: set<nat>, size: map<nat, nat>, own: map<nat, nat>) {
    && (forall b :: b in free ==> Block(b, size, own))
    && (forall b :: b in live ==> Block(b, size, own))
    && free !! live
    && (forall x :: x in own ==>
          && base < own[x] <= x
          && own[x] in size && x < own[x] + size[own[x]]
          && (own[x] in free || own[x] in live))
    && base in size && size[base] == 0
  }

  /** An arbitrary depth at which larger predicates are kept folded: their definitions are
      unfolded only by calling the lemma that says so, which keeps proofs short. */
  const DEPTH: nat

  ghost predicate TiledAt(
    base: nat, free: set<nat>, live: set<nat>, size: map<nat, nat>, own: map<nat, nat>, depth: nat) {
    if depth == 0 then TiledBody(base, free, live, size, own) else TiledAt(base, free, live, size, own, depth - 1)
  }

  ghost predicate Tiled(base: nat, free: set<nat>, live: set<nat>, size: map<nat, nat>, own: map<nat, nat>) {
    TiledAt(base, free, live, size, own, DEPTH)
  }

  lemma {:induction false} UnfoldTiledAt(
    base: nat, free: set<nat>, live: set<nat>, size: map<nat, nat>, own: map<nat, nat>, depth: nat)
    ensures TiledAt(base, free, live, size, own, depth) <==> TiledBody(base, free, live, size, own)
  {
    if depth > 0 {
      UnfoldTiledAt(base, free, live, size, own, depth - 1);
    }
  }

  lemma UnfoldTiled(base: nat, free: set<nat>, live: set<nat>, size: map<nat, nat>, own: map<nat, nat>)
    ensures Tiled(base, free, live, size, own) <==> TiledBody(base, free, live, size, own)
  {
    UnfoldTiledAt(base, free, live, size, own, DEPTH);
  }

  /** The free blocks of a list: all but base. */
  ghost function FreeSet(fl: seq<nat>): set<nat> {
    set i | 1 <= i < |fl| :: fl[i]
  }

  ghost predicate ApartAt(fl: seq<nat>, size: map<nat, nat>, i: nat)
    requires i + 1 < |fl|
  {
    fl[i] in size && fl[i] + size[fl[i]] != fl[i + 1]
  }

  /** No two free blocks touch. */
  ghost predicate Apart(fl: seq<nat>, size: map<nat, nat>) {
    forall i :: 1 <= i < |fl| - 1 ==> ApartAt(fl, size, i)
  }

  /** Blocks do not overlap. */
  lemma Disjoint(b: nat, c: nat, size: map<nat, nat>, own: map<nat, nat>)
    requires Block(b, size, own) && Block(c, size, own) && b < c
    ensures b + size[b] <= c
  {
    assert own[c] == c;
  }

  // ---------------------------------------------------------------- freeing, on values

  /** Where block `bp` goes: right after `fl[k]`. */
  ghost predicate Slot(fl: seq<nat>, bp: nat, k: nat) {
    k < |fl| && fl[k] < bp && (k + 1 < |fl| ==> bp < fl[k + 1])
  }

  /** A block above base has a place in the list, and only one. */
  lemma {:induction false} SlotExists(fl: seq<nat>, bp: nat) returns (k: nat)
    requires fl != [] && Sorted(fl) && fl[0] < bp && bp !in fl
    ensures Slot(fl, bp, k)
  {
    k := 0;
    while k + 1 < |fl| && fl[k + 1] < bp
      invariant k < |fl| && fl[k] < bp
    {
      k := k + 1;
    }
  }

  /** Does the freed block touch the free block after it, or the one before it? */
  predicate TouchesNext(fl: seq<nat>, size: map<nat, nat>, bp: nat, k: nat)
    requires bp in size
  {
    k + 1 < |fl| && bp + size[bp] == fl[k + 1]
  }

  predicate TouchesPrev(fl: seq<nat>, size: map<nat, nat>, bp: nat, k: nat)
    requires k < |fl| && fl[k] in size
  {
    fl[k] + size[fl[k]] == bp
  }

  function Inserted(fl: seq<nat>, b: nat, k: nat): seq<nat>
    requires k < |fl|
  {
    fl[..k + 1] + [b] + fl[k + 1..]
  }

  function Removed(fl: seq<nat>, j: nat): seq<nat>
    requires j < |fl|
  {
    fl[..j] + fl[j + 1..]
  }

  ghost function ListAfterNext(fl: seq<nat>, size: map<nat, nat>, bp: nat, k: nat): (g: seq<nat>)
    requires bp in size && k < |fl|
    ensures k + 1 < |g| && g[k + 1] == bp && g[k] == fl[k]
  {
    var f := Inserted(fl, bp, k);
    if TouchesNext(fl, size, bp, k) then Removed(f, k + 2) else f
  }

  /** The free list after freeing `bp`: inserted, then merged with its neighbours. */
  ghost function FreedList(fl: seq<nat>, size: map<nat, nat>, bp: nat, k: nat): seq<nat>
    requires bp in size && k < |fl| && fl[k] in size
  {
    var g := ListAfterNext(fl, size, bp, k);
    if TouchesPrev(fl, size, bp, k) then Removed(g, k + 1) else g
  }

  function SizeAfterNext(fl: seq<nat>, size: map<nat, nat>, bp: nat, k: nat): map<nat, nat>
    requires bp in size && forall i :: 0 <= i < |fl| ==> fl[i] in size
  {
    if TouchesNext(fl, size, bp, k) then size[bp := size[bp] + size[fl[k + 1]]] else size
  }

  /** The sizes after freeing `bp`: merged with the next block, then with the previous. */
  function FreedSize(fl: seq<nat>, size: map<nat, nat>, bp: nat, k: nat): map<nat, nat>
    requires k < |fl| && bp in size && forall i :: 0 <= i < |fl| ==> fl[i] in size
  {
    var s := SizeAfterNext(fl, size, bp, k);
    if TouchesPrev(fl, size, bp, k) then s[fl[k] := s[fl[k]] + s[bp]] else s
  }

  /** The links after freeing `bp`. */
  function FreedPtr(fl: seq<nat>, ptr: map<nat, nat>, size: map<nat, nat>, bp: nat, k: nat): map<nat, nat>
    requires k < |fl| && bp in size && fl[k] in size && fl[Succ(k, |fl|)] in ptr
  {
    var q := fl[Succ(k, |fl|)];
    var next := if TouchesNext(fl, size, bp, k) then ptr[q] else q;
    ptr[bp := next][fl[k] := if TouchesPrev(fl, size, bp, k) then next else bp]
  }

  /** Ownership after block `from` is absorbed into block `to`. */
  ghost function Absorbed(own: map<nat, nat>, from: nat, to: nat): (r: map<nat, nat>)
    ensures r.Keys == own.Keys
  {
    map x | x in own :: if own[x] == from then to else own[x]
  }

  ghost function OwnAfterNext(
    fl: seq<nat>, size: map<nat, nat>, own: map<nat, nat>, bp: nat, k: nat): (r: map<nat, nat>)
    requires bp in size
    ensures r.Keys == own.Keys
  {
    if TouchesNext(fl, size, bp, k) then Absorbed(own, fl[k + 1], bp) else own
  }

  /** Ownership after freeing `bp`. */
  ghost function FreedOwn(fl: seq<nat>, size: map<nat, nat>, own: map<nat, nat>, bp: nat, k: nat): (r: map<nat, nat>)
    requires bp in size && k < |fl| && fl[k] in size
    ensures r.Keys == own.Keys
  {
    var o := OwnAfterNext(fl, size, own, bp, k);
    if TouchesPrev(fl, size, bp, k) then Absorbed(o, bp, fl[k]) else o
  }

  lemma {:induction false} InsertChain(base: nat, fl: seq<nat>, ptr: map<nat, nat>, b: nat, k: nat)
    requires Chain(base, fl, ptr) && Slot(fl, b, k)
    ensures Chain(base, Inserted(fl, b, k), ptr[b := fl[Succ(k, |fl|)]][fl[k] := b])
  {
    var g, p := Inserted(fl, b, k), ptr[b := fl[Succ(k, |fl|)]][fl[k] := b];
    forall i | 0 <= i < |g| ensures LinkAt(g, p, i) {
      if i < k {
        assert LinkAt(fl, ptr, i) && fl[i] < fl[k];
      } else if i > k + 1 {
        assert LinkAt(fl, ptr, i - 1) && fl[k] < fl[i - 1] && b < fl[i - 1];
      }
    }
  }

  lemma {:induction false} RemoveChain(base: nat, fl: seq<nat>, ptr: map<nat, nat>, j: nat)
    requires Chain(base, fl, ptr) && 1 <= j < |fl|
    ensures fl[j] in ptr && Chain(base, Removed(fl, j), ptr[fl[j - 1] := ptr[fl[j]]])
  {
    assert LinkAt(fl, ptr, j);
    var g, p := Removed(fl, j), ptr[fl[j - 1] := ptr[fl[j]]];
    forall i | 0 <= i < |g| ensures LinkAt(g, p, i) {
      if i < j - 1 {
        assert LinkAt(fl, ptr, i) && fl[i] < fl[j - 1];
      } else if i >= j {
        assert LinkAt(fl, ptr, i + 1) && fl[j - 1] < fl[i + 1];
      }
    }
  }

  lemma Overwrites(m: map<nat, nat>, b: nat, p: nat, q: nat, n: nat)
    requires b != p
    ensures m[b := q][p := b][b := n] == m[b := n][p := b]
    ensures m[b := q][p := b][b := n][p := n] == m[b := n][p := n]
    ensures m[b := q][p := b][p := q] == m[b := q][p := q]
  {
  }

  /** Freeing keeps the list one cycle in address order. */
  lemma {:induction false} FreedChain(base: nat, fl: seq<nat>, ptr: map<nat, nat>, size: map<nat, nat>, bp: nat, k: nat)
    requires Chain(base, fl, ptr) && Slot(fl, bp, k) && bp in size
    requires forall i :: 0 <= i < |fl| ==> fl[i] in size
    requires LinkAt(fl, ptr, Succ(k, |fl|))
    ensures Chain(base, FreedList(fl, size, bp, k), FreedPtr(fl, ptr, size, bp, k))
  {
    var q := fl[Succ(k, |fl|)];
    var f, p := Inserted(fl, bp, k), ptr[bp := q][fl[k] := bp];
    InsertChain(base, fl, ptr, bp, k);
    Overwrites(ptr, bp, fl[k], q, ptr[q]);
    var g, r := f, p;
    if TouchesNext(fl, size, bp, k) {
      assert f[k + 1] == bp && f[k + 2] == q && p[q] == ptr[q];
      RemoveChain(base, f, p, k + 2);
      g, r := Removed(f, k + 2), p[bp := ptr[q]];
    }
    assert Chain(base, g, r) && g[k] == fl[k] && g[k + 1] == bp;
    if TouchesPrev(fl, size, bp, k) {
      RemoveChain(base, g, r, k + 1);
      assert FreedPtr(fl, ptr, size, bp, k) == r[fl[k] := r[bp]];
    } else {
      assert FreedPtr(fl, ptr, size, bp, k) == r;
    }
  }

  lemma {:induction false} InsertedSet(fl: seq<nat>, b: nat, k: nat)
    requires k < |fl|
    ensures FreeSet(Inserted(fl, b, k)) == FreeSet(fl) + {b}
  {
    var g := Inserted(fl, b, k);
    forall x | x in FreeSet(fl) + {b} ensures x in FreeSet(g) {
      if x == b {
        assert g[k + 1] == b;
      } else {
        var i :| 1 <= i < |fl| && fl[i] == x;
        assert g[if i <= k then i else i + 1] == x;
      }
    }
  }

  lemma {:induction false} RemovedSet(fl: seq<nat>, j: nat)
    requires Sorted(fl) && 1 <= j < |fl|
    ensures FreeSet(Removed(fl, j)) == FreeSet(fl) - {fl[j]}
  {
    var g := Removed(fl, j);
    forall x | x in FreeSet(fl) - {fl[j]} ensures x in FreeSet(g) {
      var i :| 1 <= i < |fl| && fl[i] == x;
      assert g[if i < j then i else i - 1] == x;
    }
  }

  /** Two adjacent free blocks become one; no unit changes hands otherwise. */
  lemma {:induction false} MergeTiled(
    base: nat, free: set<nat>, live: set<nat>, size: map<nat, nat>, own: map<nat, nat>, a: nat, b: nat)
    requires Tiled(base, free, live, size, own) && a in free && b in free
    requires a in size && b in size && a + size[a] == b
    ensures Tiled(base, free - {b}, live, size[a := size[a] + size[b]], Absorbed(own, b, a))
  {
    var s, o := size[a := size[a] + size[b]], Absorbed(own, b, a);
    UnfoldTiled(base, free, live, size, own);
    UnfoldTiled(base, free - {b}, live, s, o);
    assert Block(a, size, own) && Block(b, size, own);
    assert own[a] == a && base < a;
    assert Block(a, s, o);
    forall c | c in free + live && c != a && c != b ensures Block(c, s, o) {
      assert Block(c, size, own);
    }
  }

  lemma {:induction false} SortedInsert(fl: seq<nat>, b: nat, k: nat)
    requires Sorted(fl) && Slot(fl, b, k)
    ensures Sorted(Inserted(fl, b, k))
  {
  }

  lemma {:induction false} NextSorted(fl: seq<nat>, size: map<nat, nat>, bp: nat, k: nat)
    requires Sorted(fl) && bp in size && Slot(fl, bp, k)
    ensures Sorted(ListAfterNext(fl, size, bp, k))
  {
    SortedInsert(fl, bp, k);
  }

  /** Merging neighbours `a` and `b` of a sorted list. */
  lemma {:induction false} MergeAt(
    base: nat, g: seq<nat>, live: set<nat>, size: map<nat, nat>, own: map<nat, nat>, j: nat, a: nat, b: nat)
    requires Sorted(g) && Tiled(base, FreeSet(g), live, size, own)
    requires 1 <= j && j + 1 < |g| && g[j] == a && g[j + 1] == b
    requires a in size && b in size && a + size[a] == b
    ensures Tiled(base, FreeSet(Removed(g, j + 1)), live, size[a := size[a] + size[b]], Absorbed(own, b, a))
  {
    RemovedSet(g, j + 1);
    assert g[j] in FreeSet(g) && g[j + 1] in FreeSet(g);
    MergeTiled(base, FreeSet(g), live, size, own, a, b);
  }

  lemma {:induction false} NextTiled(
    base: nat, fl: seq<nat>, live: set<nat>, size: map<nat, nat>, own: map<nat, nat>, bp: nat, k: nat)
    requires Sorted(fl) && Tiled(base, FreeSet(fl) + {bp}, live, size, own)
    requires bp in size && Slot(fl, bp, k)
    requires forall i :: 0 <= i < |fl| ==> fl[i] in size
    ensures Tiled(base, FreeSet(ListAfterNext(fl, size, bp, k)), live, SizeAfterNext(fl, size, bp, k),
                  OwnAfterNext(fl, size, own, bp, k))
  {
    InsertedSet(fl, bp, k);
    if TouchesNext(fl, size, bp, k) {
      SortedInsert(fl, bp, k);
      MergeAt(base, Inserted(fl, bp, k), live, size, own, k + 1, bp, fl[k + 1]);
    }
  }

  lemma {:induction false} PrevTiled(
    base: nat, g: seq<nat>, live: set<nat>, s: map<nat, nat>, o: map<nat, nat>, bp: nat, k: nat, touches: bool)
    requires g != [] && g[0] == base && Sorted(g) && k + 1 < |g| && g[k + 1] == bp && g[k] in s && bp in s
    requires touches ==> k >= 1 && g[k] + s[g[k]] == bp
    requires Tiled(base, FreeSet(g), live, s, o)
    ensures Tiled(base, FreeSet(if touches then Removed(g, k + 1) else g), live,
                  if touches then s[g[k] := s[g[k]] + s[bp]] else s, if touches then Absorbed(o, bp, g[k]) else o)
  {
    if touches {
      MergeAt(base, g, live, s, o, k, g[k], bp);
    }
  }

  /** Freeing keeps every unit in exactly one block. */
  lemma {:induction false} FreedTiled(
    base: nat, fl: seq<nat>, live: set<nat>, size: map<nat, nat>, own: map<nat, nat>, bp: nat, k: nat)
    requires fl != [] && fl[0] == base && Sorted(fl) && Tiled(base, FreeSet(fl), live, size, own)
    requires bp in live && bp in size && Slot(fl, bp, k)
    requires forall i :: 0 <= i < |fl| ==> fl[i] in size
    ensures Tiled(base, FreeSet(FreedList(fl, size, bp, k)), live - {bp}, FreedSize(fl, size, bp, k),
                  FreedOwn(fl, size, own, bp, k))
  {
    UnfoldTiled(base, FreeSet(fl), live, size, own);
    UnfoldTiled(base, FreeSet(fl) + {bp}, live - {bp}, size, own);
    NextTiled(base, fl, live - {bp}, size, own, bp, k);
    NextSorted(fl, size, bp, k);
    PrevTiled(base, ListAfterNext(fl, size, bp, k), live - {bp}, SizeAfterNext(fl, size, bp, k),
              OwnAfterNext(fl, size, own, bp, k), bp, k, TouchesPrev(fl, size, bp, k));
  }

  lemma {:induction false} NextApart(base: nat, fl: seq<nat>, size: map<nat, nat>, bp: nat, k: nat)
    requires Sorted(fl) && bp in size && Slot(fl, bp, k) && Apart(fl, size)
    requires forall i :: 0 <= i < |fl| ==> fl[i] in size
    ensures forall i :: 1 <= i < |ListAfterNext(fl, size, bp, k)| - 1 && i != k ==>
              ApartAt(ListAfterNext(fl, size, bp, k), SizeAfterNext(fl, size, bp, k), i)
  {
    var g, s := ListAfterNext(fl, size, bp, k), SizeAfterNext(fl, size, bp, k);
    var d := if TouchesNext(fl, size, bp, k) then 0 else 1;
    assert forall i :: 0 <= i <= k ==> g[i] == fl[i];
    assert forall i :: k + 1 < i < |g| ==> g[i] == fl[i - d];
    forall i | 1 <= i < |g| - 1 && i != k ensures ApartAt(g, s, i) {
      if i < k {
        assert ApartAt(fl, size, i) && fl[i] < fl[k] < bp;
      } else if i == k + 1 {
        if d == 0 {
          assert ApartAt(fl, size, k + 1);
        }
      } else {
        assert ApartAt(fl, size, i - d) && bp < fl[i - d];
      }
    }
  }

  lemma {:induction false} MergedApart(f: seq<nat>, r: map<nat, nat>, k: nat)
    requires Sorted(f) && k + 1 < |f| && f[k] in r && f[k + 1] in r && f[k] + r[f[k]] == f[k + 1]
    requires forall i :: 1 <= i < |f| - 1 && i != k ==> ApartAt(f, r, i)
    ensures Apart(Removed(f, k + 1), r[f[k] := r[f[k]] + r[f[k + 1]]])
  {
    var g, s := Removed(f, k + 1), r[f[k] := r[f[k]] + r[f[k + 1]]];
    forall i | 1 <= i < |g| - 1 ensures ApartAt(g, s, i) {
      if i < k {
        assert ApartAt(f, r, i) && f[i] < f[k];
      } else {
        assert ApartAt(f, r, i + 1) && f[k] < f[i + 1];
      }
    }
  }

  /** Freeing leaves no two free blocks touching. */
  lemma {:induction false} FreedApart(base: nat, fl: seq<nat>, size: map<nat, nat>, bp: nat, k: nat)
    requires Sorted(fl) && bp in size && Slot(fl, bp, k) && Apart(fl, size)
    requires forall i :: 0 <= i < |fl| ==> fl[i] in size
    requires Sorted(ListAfterNext(fl, size, bp, k))
    ensures Apart(FreedList(fl, size, bp, k), FreedSize(fl, size, bp, k))
  {
    NextApart(base, fl, size, bp, k);
    var f, r := ListAfterNext(fl, size, bp, k), SizeAfterNext(fl, size, bp, k);
    if TouchesPrev(fl, size, bp, k) {
      MergedApart(f, r, k);
    } else {
      assert k >= 1 && k + 1 < |f| ==> ApartAt(f, r, k);
    }
  }

  // ---------------------------------------------------------------- allocating, on values

  /** Taking a whole block off the list leaves the rest apart. */
  lemma {:induction false} TakeWholeApart(fl: seq<nat>, size: map<nat, nat>, own: map<nat, nat>, j: nat)
    requires Sorted(fl) && Apart(fl, size) && 1 <= j < |fl|
    requires forall i :: 1 <= i < |fl| ==> Block(fl[i], size, own)
    ensures Apart(Removed(fl, j), size)
  {
    var g := Removed(fl, j);
    if 1 < j {
      Disjoint(fl[j - 1], fl[j], size, own);
    }
    forall i | 1 <= i < |g| - 1 ensures ApartAt(g, size, i) {
      if i >= j {
        assert ApartAt(fl, size, i + 1);
      } else if i < j - 1 {
        assert ApartAt(fl, size, i);
      } else {
        assert fl[j] < fl[j + 1];
      }
    }
  }

  /** Ownership after the units from `b` on are cut off the block that owned them. */
  ghost function Cut(own: map<nat, nat>, a: nat, b: nat): (r: map<nat, nat>)
    ensures r.Keys == own.Keys
  {
    map x | x in own :: if own[x] == a && b <= x then b else own[x]
  }

  lemma {:induction false} TailOutside(
    base: nat, free: set<nat>, live: set<nat>, size: map<nat, nat>, own: map<nat, nat>, a: nat, b: nat)
    requires TiledBody(base, free, live, size, own) && a in free && a in size && a < b < a + size[a]
    ensures b !in free && b !in live && b in own && own[b] == a
  {
    assert Block(a, size, own) && own[b] == a;
  }

  lemma {:induction false} OtherBlock(size: map<nat, nat>, own: map<nat, nat>, a: nat, b: nat, c: nat)
    requires Block(c, size, own) && a in size && a < b < a + size[a] && c != a && c != b
    ensures Block(c, size[a := b - a][b := a + size[a] - b], Cut(own, a, b))
  {
  }

  lemma {:induction false} CutBlocks(size: map<nat, nat>, own: map<nat, nat>, a: nat, b: nat)
    requires Block(a, size, own) && a < b < a + size[a]
    ensures Block(a, size[a := b - a][b := a + size[a] - b], Cut(own, a, b))
    ensures Block(b, size[a := b - a][b := a + size[a] - b], Cut(own, a, b))
  {
  }

  lemma {:induction false} TailBlocks(
    base: nat, free: set<nat>, live: set<nat>, size: map<nat, nat>, own: map<nat, nat>, a: nat, b: nat)
    requires TiledBody(base, free, live, size, own) && a in free && a in size && a < b < a + size[a]
    ensures var s, o := size[a := b - a][b := a + size[a] - b], Cut(own, a, b);
            (forall c :: c in free ==> Block(c, s, o)) && forall c :: c in live + {b} ==> Block(c, s, o)
  {
    var s, o := size[a := b - a][b := a + size[a] - b], Cut(own, a, b);
    TailOutside(base, free, live, size, own, a, b);
    CutBlocks(size, own, a, b);
    forall c | c in free && c != a ensures Block(c, s, o) {
      OtherBlock(size, own, a, b, c);
    }
    forall c | c in live ensures Block(c, s, o) {
      OtherBlock(size, own, a, b, c);
    }
  }

  lemma {:induction false} TailUnits(
    base: nat, free: set<nat>, live: set<nat>, size: map<nat, nat>, own: map<nat, nat>, a: nat, b: nat)
    requires TiledBody(base, free, live, size, own) && a in free && a in size && a < b < a + size[a]
    ensures var s, o := size[a := b - a][b := a + size[a] - b], Cut(own, a, b);
            forall x :: x in o ==>
              && base < o[x] <= x && o[x] in s && x < o[x] + s[o[x]]
              && (o[x] in free || o[x] in live + {b})
  {
    TailOutside(base, free, live, size, own, a, b);
    var s, o := size[a := b - a][b := a + size[a] - b], Cut(own, a, b);
    forall x | x in o
      ensures base < o[x] <= x && o[x] in s && x < o[x] + s[o[x]] && (o[x] in free || o[x] in live + {b})
    {
      assert x in own && base < own[x] <= x && x < own[x] + size[own[x]] && own[x] != b;
    }
  }

  /** Splitting the tail off a larger free block. */
  lemma {:induction false} TakeTail(
    base: nat, free: set<nat>, live: set<nat>, size: map<nat, nat>, own: map<nat, nat>, a: nat, b: nat)
    requires Tiled(base, free, live, size, own) && a in free && a in size && a < b < a + size[a]
    ensures b !in free && b !in live
    ensures Tiled(base, free, live + {b}, size[a := b - a][b := a + size[a] - b], Cut(own, a, b))
  {
    var s, o := size[a := b - a][b := a + size[a] - b], Cut(own, a, b);
    UnfoldTiled(base, free, live, size, own);
    UnfoldTiled(base, free, live + {b}, s, o);
    TailOutside(base, free, live, size, own, a, b);
    TailBlocks(base, free, live, size, own, a, b);
    TailUnits(base, free, live, size, own, a, b);
  }

  lemma {:induction false} TailApart(fl: seq<nat>, size: map<nat, nat>, own: map<nat, nat>, j: nat, b: nat)
    requires Apart(fl, size) && Sorted(fl) && 1 <= j < |fl| && b !in fl
    requires forall i :: 1 <= i < |fl| ==> Block(fl[i], size, own)
    requires fl[j] in size && fl[j] < b < fl[j] + size[fl[j]]
    ensures Apart(fl, size[fl[j] := b - fl[j]][b := fl[j] + size[fl[j]] - b])
  {
    var s := size[fl[j] := b - fl[j]][b := fl[j] + size[fl[j]] - b];
    forall i | 1 <= i < |fl| - 1 ensures ApartAt(fl, s, i) {
      assert ApartAt(fl, size, i);
      if i == j {
        Disjoint(fl[j], fl[j + 1], size, own);
      }
    }
  }

  // ---------------------------------------------------------------- the heap

  ghost predicate SameAt(m: map<nat, nat>, r: map<nat, nat>, x: nat) {
    (x in m <==> x in r) && (x in m ==> m[x] == r[x])
  }

  /** The words a block's owner relies on: whose each unit is, and the headers. */
  datatype Words = Words(own: map<nat, nat>, ptr: map<nat, nat>, size: map<nat, nat>)

  /** The units of the blocks in `live` stay theirs and no header word inside them changes. */
  ghost predicate LiveKept(live: set<nat>, w: Words, v: Words) {
    forall x :: x in w.own && w.own[x] in live ==>
      x in v.own && v.own[x] == w.own[x] && SameAt(w.ptr, v.ptr, x) && SameAt(w.size, v.size, x)
  }

  lemma LiveKeptTwice(live: set<nat>, u: Words, v: Words, w: Words)
    requires LiveKept(live, u, v) && LiveKept(live, v, w)
    ensures LiveKept(live, u, w)
  {
    forall x | x in u.own && u.own[x] in live
      ensures x in w.own && w.own[x] == u.own[x] && SameAt(u.ptr, w.ptr, x) && SameAt(u.size, w.size, x)
    {
      assert x in v.own && v.own[x] == u.own[x];
    }
  }

  ghost predicate WfHeap(
    base: nat, fl: seq<nat>, live: set<nat>, ptr: map<nat, nat>, size: map<nat, nat>, own: map<nat, nat>) {
    && Chain(base, fl, ptr) && Tiled(base, FreeSet(fl), live, size, own) && Apart(fl, size)
    && (forall i :: 0 <= i < |fl| ==> fl[i] in size)
  }

  lemma {:induction false} FreedSized(fl: seq<nat>, size: map<nat, nat>, bp: nat, k: nat)
    requires bp in size && k < |fl| && forall i :: 0 <= i < |fl| ==> fl[i] in size
    ensures var g := FreedList(fl, size, bp, k); forall i :: 0 <= i < |g| ==> g[i] in FreedSize(fl, size, bp, k)
  {
    var n, g := ListAfterNext(fl, size, bp, k), FreedList(fl, size, bp, k);
    forall i | 0 <= i < |n| ensures n[i] in size {
    }
    assert forall x :: x in size ==> x in FreedSize(fl, size, bp, k);
    forall i | 0 <= i < |g| ensures g[i] in size {
      assert g[i] in n;
    }
  }

  /** Freeing a live block keeps the heap well formed. */
  lemma {:induction false} FreedWf(
    base: nat, fl: seq<nat>, live: set<nat>, ptr: map<nat, nat>, size: map<nat, nat>, own: map<nat, nat>, bp: nat,
    k: nat)
    requires WfHeap(base, fl, live, ptr, size, own) && bp in live && bp in size && Slot(fl, bp, k)
    ensures fl[Succ(k, |fl|)] in ptr
    ensures WfHeap(base, FreedList(fl, size, bp, k), live - {bp}, FreedPtr(fl, ptr, size, bp, k),
                   FreedSize(fl, size, bp, k), FreedOwn(fl, size, own, bp, k))
  {
    assert LinkAt(fl, ptr, Succ(k, |fl|));
    FreedChain(base, fl, ptr, size, bp, k);
    FreedTiled(base, fl, live, size, own, bp, k);
    NextSorted(fl, size, bp, k);
    FreedApart(base, fl, size, bp, k);
    FreedSized(fl, size, bp, k);
  }

  /** Freeing `bp` writes nothing inside the other live blocks. */
  lemma {:induction false} FreedKeepsLive(
    base: nat, fl: seq<nat>, live: set<nat>, ptr: map<nat, nat>, size: map<nat, nat>, own: map<nat, nat>, bp: nat,
    k: nat)
    requires Tiled(base, FreeSet(fl), live, size, own) && bp in live && bp in size && k < |fl| && fl[0] == base
    requires fl[Succ(k, |fl|)] in ptr && (forall i :: 0 <= i < |fl| ==> fl[i] in size)
    ensures LiveKept(live - {bp}, Words(own, ptr, size),
                     Words(FreedOwn(fl, size, own, bp, k), FreedPtr(fl, ptr, size, bp, k), FreedSize(fl, size, bp, k)))
  {
    UnfoldTiled(base, FreeSet(fl), live, size, own);
    assert own[bp] == bp by { assert Block(bp, size, own); }
    assert fl[k] in own ==> own[fl[k]] !in live by {
      if k > 0 {
        assert fl[k] in FreeSet(fl) && Block(fl[k], size, own);
      }
    }
    assert k + 1 < |fl| ==> fl[k + 1] !in live by {
      assert k + 1 < |fl| ==> fl[k + 1] in FreeSet(fl);
    }
    forall x | x in own && own[x] in live - {bp}
      ensures FreedOwn(fl, size, own, bp, k)[x] == own[x]
      ensures SameAt(ptr, FreedPtr(fl, ptr, size, bp, k), x) && SameAt(size, FreedSize(fl, size, bp, k), x)
    {
      assert x != bp && x != fl[k];
    }
  }

  ghost function Units(lo: nat, n: nat): (r: set<nat>)
    ensures forall x :: x in r <==> lo <= x < lo + n
  {
    if n == 0 then {} else Units(lo, n - 1) + {lo + n - 1}
  }

  ghost function Grown(own: map<nat, nat>, hp: nat, n: nat): (r: map<nat, nat>)
    ensures forall x :: x in r <==> x in own || hp <= x < hp + n
    ensures forall x :: x in r ==> r[x] == if hp <= x < hp + n then hp else own[x]
  {
    own + map x | x in Units(hp, n) :: hp
  }

  lemma {:induction false} OldBlock(size: map<nat, nat>, own: map<nat, nat>, hp: nat, n: nat, o: map<nat, nat>, b: nat)
    requires Block(b, size, own) && forall x :: x in own ==> x < hp
    requires forall x :: x in o <==> x in own || hp <= x < hp + n
    requires forall x :: x in o ==> o[x] == if hp <= x < hp + n then hp else own[x]
    ensures b < hp && Block(b, size[hp := n], o)
  {
    assert b in own;
    forall x | b <= x < b + size[b] ensures x in o && o[x] == b {
      assert x in own;
    }
  }

  /** A fresh block of `n` units from sbrk, above everything obtained before, joins the
      live blocks. */
  lemma {:induction false} GrownTiled(
    base: nat, free: set<nat>, live: set<nat>, size: map<nat, nat>, own: map<nat, nat>, hp: nat, n: nat, o: map<nat,
    nat>)
    requires Tiled(base, free, live, size, own) && base < hp && n >= 1
    requires forall x :: x in own ==> x < hp
    requires forall x :: x in o <==> x in own || hp <= x < hp + n
    requires forall x :: x in o ==> o[x] == if hp <= x < hp + n then hp else own[x]
    ensures hp !in live && hp !in free
    ensures Tiled(base, free, live + {hp}, size[hp := n], o)
  {
    var s := size[hp := n];
    UnfoldTiled(base, free, live, size, own);
    UnfoldTiled(base, free, live + {hp}, s, o);
    forall b | b in free ensures b < hp && Block(b, s, o) {
      OldBlock(size, own, hp, n, o, b);
    }
    forall b | b in live ensures b < hp && Block(b, s, o) {
      OldBlock(size, own, hp, n, o, b);
    }
    assert Block(hp, s, o);
  }

  lemma {:induction false} GrownWf(
    base: nat, fl: seq<nat>, live: set<nat>, ptr: map<nat, nat>, size: map<nat, nat>, own: map<nat, nat>, hp: nat,
    n: nat)
    requires WfHeap(base, fl, live, ptr, size, own) && base < hp && n >= 1
    requires forall x :: x in own ==> x < hp
    ensures hp !in live
    ensures WfHeap(base, fl, live + {hp}, ptr, size[hp := n], Grown(own, hp, n))
    ensures LiveKept(live, Words(own, ptr, size), Words(Grown(own, hp, n), ptr, size[hp := n]))
  {
    GrownTiled(base, FreeSet(fl), live, size, own, hp, n, Grown(own, hp, n));
    assert forall i :: 1 <= i < |fl| ==> fl[i] in FreeSet(fl);
    var s := size[hp := n];
    forall i | 1 <= i < |fl| - 1 ensures ApartAt(fl, s, i) {
      assert ApartAt(fl, size, i);
    }
  }

  lemma {:induction false} TakenTiled(
    base: nat, fl: seq<nat>, live: set<nat>, size: map<nat, nat>, own: map<nat, nat>, j: nat)
    requires Tiled(base, FreeSet(fl), live, size, own) && Sorted(fl) && 1 <= j < |fl|
    ensures Tiled(base, FreeSet(Removed(fl, j)), live + {fl[j]}, size, own) && fl[j] !in live
  {
    UnfoldTiled(base, FreeSet(fl), live, size, own);
    UnfoldTiled(base, FreeSet(Removed(fl, j)), live + {fl[j]}, size, own);
    RemovedSet(fl, j);
    assert fl[j] in FreeSet(fl);
  }

  lemma {:induction false} TakenWf(
    base: nat, fl: seq<nat>, live: set<nat>, ptr: map<nat, nat>, size: map<nat, nat>, own: map<nat, nat>, j: nat)
    requires WfHeap(base, fl, live, ptr, size, own) && 1 <= j < |fl|
    ensures fl[j] in ptr && fl[j] !in live
    ensures WfHeap(base, Removed(fl, j), live + {fl[j]}, ptr[fl[j - 1] := ptr[fl[j]]], size, own)
  {
    RemoveChain(base, fl, ptr, j);
    TakenTiled(base, fl, live, size, own, j);
    UnfoldTiled(base, FreeSet(fl), live, size, own);
    assert forall i :: 1 <= i < |fl| ==> fl[i] in FreeSet(fl);
    TakeWholeApart(fl, size, own, j);
  }

  lemma {:induction false} TakenKeepsLive(
    base: nat, fl: seq<nat>, live: set<nat>, ptr: map<nat, nat>, size: map<nat, nat>, own: map<nat, nat>, j: nat,
    q: nat)
    requires Tiled(base, FreeSet(fl), live, size, own) && 1 <= j < |fl| && fl[0] == base
    ensures LiveKept(live, Words(own, ptr, size), Words(own, ptr[fl[j - 1] := q], size))
  {
    UnfoldTiled(base, FreeSet(fl), live, size, own);
    assert fl[j - 1] in own ==> own[fl[j - 1]] !in live by {
      if j > 1 {
        assert fl[j - 1] in FreeSet(fl) && Block(fl[j - 1], size, own);
      }
    }
  }

  lemma {:induction false} SplitWf(
    base: nat, fl: seq<nat>, live: set<nat>, ptr: map<nat, nat>, size: map<nat, nat>, own: map<nat, nat>, j: nat,
    b: nat)
    requires WfHeap(base, fl, live, ptr, size, own) && 1 <= j < |fl| && fl[j] < b < fl[j] + size[fl[j]]
    ensures b !in live
    ensures WfHeap(base, fl, live + {b}, ptr, size[fl[j] := b - fl[j]][b := fl[j] + size[fl[j]] - b],
                   Cut(own, fl[j], b))
  {
    UnfoldTiled(base, FreeSet(fl), live, size, own);
    assert forall i :: 1 <= i < |fl| ==> fl[i] in FreeSet(fl);
    TakeTail(base, FreeSet(fl), live, size, own, fl[j], b);
    assert b != fl[0];
    TailApart(fl, size, own, j, b);
  }

  lemma {:induction false} SplitKeepsLive(
    base: nat, fl: seq<nat>, live: set<nat>, ptr: map<nat, nat>, size: map<nat, nat>, own: map<nat, nat>, a: nat,
    b: nat)
    requires Tiled(base, FreeSet(fl), live, size, own) && a in FreeSet(fl) && a in size && a < b < a + size[a]
    ensures LiveKept(live, Words(own, ptr, size), Words(Cut(own, a, b), ptr, size[a := b - a][b := a + size[a] - b]))
  {
    UnfoldTiled(base, FreeSet(fl), live, size, own);
    assert Block(a, size, own);
    assert own[b] == a && own[a] == a;
  }

  /** Everything the invariant speaks of. */
  datatype Model = Model(base: nat, fl: seq<nat>, live: set<nat>, words: Words)

  ghost predicate WfModel(m: Model) {
    WfHeap(m.base, m.fl, m.live, m.words.ptr, m.words.size, m.words.own)
  }

  /** `WfModel`, folded: equal to it at every depth, but unfolded only by `Unfold`. */
  ghost predicate Folded(m: Model, depth: nat) {
    if depth == 0 then WfModel(m) else Folded(m, depth - 1)
  }

  lemma {:induction false} FoldedAt(m: Model, depth: nat)
    ensures Folded(m, depth) <==> WfModel(m)
  {
    if depth > 0 {
      FoldedAt(m, depth - 1);
    }
  }

  lemma Unfold(m: Model)
    ensures Folded(m, DEPTH) <==> WfModel(m)
  {
    FoldedAt(m, DEPTH);
  }

  /** The heap on the first call: base alone, linked to itself. */
  ghost function First(base: nat, ptr: map<nat, nat>, size: map<nat, nat>): (m: Model)
    ensures Folded(m, DEPTH) && m == Model(base, [base], {}, Words(map[], ptr[base := base], size[base := 0]))
  {
    var m := Model(base, [base], {}, Words(map[], ptr[base := base], size[base := 0]));
    assert LinkAt(m.fl, m.words.ptr, 0) && FreeSet(m.fl) == {};
    UnfoldTiled(base, {}, {}, m.words.size, map[]);
    Unfold(m);
    m
  }

  type WellFormed = m: Model | Folded(m, DEPTH) ghost witness First(1, map[], map[])

  /** Is there a free block of at least `n` units? */
  ghost predicate HasRoom(m: Model, n: nat) {
    exists i :: 0 <= i < |m.fl| && m.fl[i] in m.words.size && m.words.size[m.fl[i]] >= n
  }

  /** What a successful allocation of `n` units does to the heap. */
  ghost predicate Allocates(m: Model, r: Model, b: nat, n: nat) {
    && b !in m.live && r.live == m.live + {b} && b in r.words.size && r.words.size[b] == n
    && LiveKept(m.live, m.words, r.words)
  }

  lemma AllocatesLater(m: Model, k: Model, r: Model, b: nat, n: nat)
    requires m.live == k.live && LiveKept(m.live, m.words, k.words) && Allocates(k, r, b, n)
    ensures Allocates(m, r, b, n)
  {
    LiveKeptTwice(m.live, m.words, k.words, r.words);
  }

  class Heap {
    const base: nat
    var freep: nat           // 0 until the first malloc
    var ptr: map<nat, nat>   // s.ptr of the header at each address
    var size: map<nat, nat>  // s.size of the header at each address
    var brk: nat             // first unit past the process's memory
    ghost var m: WellFormed  // the list, the live blocks, and who owns each unit

    /** The process has every unit that the allocator takes for its own. */
    ghost predicate Backed()
      reads this
    {
      base < brk && forall x :: x in m.words.own ==> x < brk
    }

    /** A heap that has been used: the headers in memory are the model's. */
    ghost predicate Ready()
      reads this
    {
      0 < base == m.base && freep != 0 && freep in m.fl && ptr == m.words.ptr && size == m.words.size
    }

    ghost predicate Valid()
      reads this
    {
      if freep == 0 then 0 < base == m.base && m.live == {} && m.words.own == map[] else Ready()
    }

    constructor (base: nat, brk: nat)
      requires 0 < base < brk
      ensures Valid() && Backed() && m.live == {} && m.words.own == map[] && this.base == base && this.brk == brk
    {
      this.base, this.brk := base, brk;
      freep, ptr, size := 0, map[], map[];
      m := First(base, map[], map[]);
    }

    /** The search loop of `free`: goes round the cycle to the block before `bp`. */
    method FindPlace(bp: nat, ghost k: nat) returns (p: nat)
      requires Ready() && Slot(m.fl, bp, k)
      ensures p == m.fl[k]
    {
      Unfold(m);
      ghost var fl := m.fl;
      p := freep;
      ghost var i :| 0 <= i < |fl| && fl[i] == p;
      assert LinkAt(fl, ptr, i);
      while !(bp > p && bp < ptr[p])
        invariant 0 <= i < |fl| && p == fl[i] && LinkAt(fl, ptr, i)
        decreases Dist(i, k, |fl|)
      {
        if p >= ptr[p] && (bp > p || bp < ptr[p]) {
          break;
        }
        p := ptr[p];
        i := Succ(i, |fl|);
        assert LinkAt(fl, ptr, i);
      }
    }

    /** Links `bp` in after `p`, merging it with either neighbour it touches. */
    method Relink(bp: nat, p: nat, ghost fl: seq<nat>, ghost k: nat)
      requires Chain(base, fl, ptr) && Slot(fl, bp, k) && p == fl[k] && bp in size
      requires forall i :: 0 <= i < |fl| ==> fl[i] in size
      requires LinkAt(fl, ptr, Succ(k, |fl|))
      modifies this`freep, this`ptr, this`size
      ensures size == FreedSize(fl, old(size), bp, k) && ptr == FreedPtr(fl, old(ptr), old(size), bp, k)
      ensures freep == p
    {
      assert LinkAt(fl, ptr, k);
      var q := ptr[p];
      if bp + size[bp] == q {
        size := size[bp := size[bp] + size[q]];
        ptr := ptr[bp := ptr[q]];
      } else {
        ptr := ptr[bp := q];
      }
      if p + size[p] == bp {
        size := size[p := size[p] + size[bp]];
        ptr := ptr[p := ptr[bp]];
      } else {
        ptr := ptr[p := bp];
      }
      freep := p;
    }

    /** Freeing gives back exactly the block's units, keeps the list one ordered cycle with
        no two free blocks touching, and touches no other live block. */
    method Free(ap: nat)
      requires Ready() && ap >= 1 && ap - 1 in m.live
      modifies this`freep, this`ptr, this`size, this`m
      ensures Ready()
      ensures m.live == old(m).live - {ap - 1} && m.words.own.Keys == old(m).words.own.Keys
      ensures LiveKept(m.live, old(m).words, m.words)
      ensures ap - 1 in old(size) && HasRoom(m, old(size)[ap - 1])
    {
      var bp := ap - 1;
      ghost var k := Placed(m, bp);
      var p := FindPlace(bp, k);
      ghost var r := Freed(m, bp, k);
      Relink(bp, p, m.fl, k);
      m := r;
    }

    /** Other code in the program calls sbrk for `n` units of its own. */
    method OtherSbrk(n: nat)
      requires Valid() && Backed()
      modifies this`brk
      ensures Valid() && Backed() && brk == old(brk) + n
    {
      brk := brk + n;
    }

    /** Asks sbrk for `n` units and writes a header for one block of them. */
    method Sbrk(n: nat) returns (hp: nat)
      requires Ready() && Backed() && n >= 1
      modifies this`brk, this`size, this`m
      ensures Ready() && brk == NewBrk(old(brk), Int32(n * HEADER)) && hp == old(brk)
      ensures Allocates(old(m), m, hp, n)
      ensures m.words.own.Keys == old(m).words.own.Keys + Units(old(brk), n)
    {
      hp := brk;
      ghost var r := GrownBy(m, hp, n);
      brk := NewBrk(brk, Int32(n * HEADER));
      size := size[hp := n];
      m := r;
    }

    /** Asks sbrk for at least `nu` more units, `granted` saying whether the kernel agreed,
        and frees them into the list. */
    method Morecore(nu: nat, granted: bool) returns (r: nat)
      requires Ready() && Backed()
      modifies this
      ensures Ready() && m.live == old(m).live && LiveKept(m.live, old(m).words, m.words)
      ensures !granted ==> r == 0 && brk == old(brk) && m == old(m) && freep == old(freep)
      ensures granted ==> r == freep && brk == NewBrk(old(brk), Int32(Ask(nu) * HEADER)) && HasRoom(m, nu)
      ensures granted ==> m.words.own.Keys == old(m).words.own.Keys + Units(old(brk), Ask(nu))
    {
      var n := nu;
      if n < NALLOC {
        n := NALLOC;
      }
      if !granted {
        return 0;
      }
      var hp := Sbrk(n);
      ghost var grown := m.words;
      Free(hp + 1);
      assert m.live == old(m).live;
      LiveKeptTwice(m.live, old(m).words, grown, m.words);
      return freep;
    }

    /** Unlinks free block `p` whole. */
    method TakeAll(prevp: nat, p: nat, ghost j: nat)
      requires Ready() && 1 <= j < |m.fl| && p == m.fl[j] && prevp == m.fl[j - 1]
      modifies this`freep, this`ptr, this`m
      ensures Ready() && m.words.own == old(m).words.own
      ensures p in size && Allocates(old(m), m, p, size[p])
    {
      ghost var r := Taken(m, j);
      ptr := ptr[prevp := ptr[p]];
      m := r;
      freep := prevp;
    }

    /** Cuts the last `nunits` units off free block `p`. */
    method TakeTailOf(prevp: nat, p: nat, nunits: nat, ghost j: nat) returns (b: nat)
      requires Ready() && nunits >= 1
      requires 1 <= j < |m.fl| && p == m.fl[j] && prevp == m.fl[j - 1] && p in size && size[p] > nunits
      modifies this`freep, this`size, this`m
      ensures Ready() && m.words.own.Keys == old(m).words.own.Keys
      ensures Allocates(old(m), m, b, nunits)
    {
      b := p + size[p] - nunits;
      ghost var r := Split(m, j, b);
      size := size[p := size[p] - nunits];
      size := size[b := nunits];
      m := r;
      freep := prevp;
    }

    /** Sets up the one-element list on the first call. */
    method Start()
      requires Valid()
      modifies this`freep, this`ptr, this`size, this`m
      ensures Ready() && m.live == old(m).live && m.words.own == old(m).words.own
      ensures old(freep) != 0 ==> freep == old(freep) && m == old(m)
      ensures old(freep) == 0 ==> forall n :: n >= 1 ==> !HasRoom(m, n)
      ensures LiveKept(m.live, old(m).words, m.words)
    {
      if freep == 0 {
        ghost var first := First(base, ptr, size);
        ptr := ptr[base := base];
        freep := base;
        size := size[base := 0];
        m := first;
      }
    }

    /** One turn of the search loop of `malloc` round the list, starting after `freep`: stops
        at the first block that is large enough, and gives up back at `freep`. */
    method Search(nunits: nat, ghost j: nat) returns (prevp: nat, p: nat, found: bool, ghost i: nat)
      requires Ready() && j < |m.fl| && m.fl[j] == freep && nunits >= 1
      ensures found <==> HasRoom(m, nunits)
      ensures found ==> 1 <= i < |m.fl| && p == m.fl[i] && prevp == m.fl[i - 1] && p in size && size[p] >= nunits
      ensures found ==>
                forall t :: 0 <= t < |m.fl| && Dist(t, j, |m.fl|) > Dist(i, j, |m.fl|) ==>
                  m.fl[t] in size && size[m.fl[t]] < nunits
    {
      Unfold(m);
      UnfoldTiled(base, FreeSet(m.fl), m.live, size, m.words.own);
      ghost var fl := m.fl;
      assert LinkAt(fl, ptr, j);
      prevp, p, i := freep, ptr[freep], Succ(j, |fl|);
      while true
        invariant 0 <= i < |fl| && p == fl[i] && prevp == fl[if i == 0 then |fl| - 1 else i - 1]
        invariant forall t :: 0 <= t < |fl| && Dist(t, j, |fl|) > Dist(i, j, |fl|) ==> size[fl[t]] < nunits
        decreases Dist(i, j, |fl|)
      {
        if size[p] >= nunits {
          return prevp, p, true, i;
        }
        if p == freep {
          assert forall t :: 0 <= t < |fl| && t != j ==> Dist(t, j, |fl|) > 0;
          return prevp, p, false, i;
        }
        assert LinkAt(fl, ptr, i);
        prevp, p, i := p, ptr[p], Succ(i, |fl|);
      }
    }

    /** A search and, if it succeeds, an allocation of all or of the tail of the block. */
    method TryTake(nunits: nat) returns (ap: nat)
      requires Ready() && nunits >= 1
      modifies this`freep, this`ptr, this`size, this`m
      ensures Ready() && m.words.own.Keys == old(m).words.own.Keys
      ensures ap != 0 <==> HasRoom(old(m), nunits)
      ensures ap == 0 ==> m == old(m)
      ensures ap != 0 ==> Allocates(old(m), m, ap - 1, nunits)
    {
      ghost var j :| 0 <= j < |m.fl| && m.fl[j] == freep;
      var prevp, p, found, i := Search(nunits, j);
      if !found {
        ap := 0;
      } else if size[p] == nunits {
        TakeAll(prevp, p, i);
        ap := p + 1;
      } else {
        var b := TakeTailOf(prevp, p, nunits, i);
        ap := b + 1;
      }
    }

    /** The second search, after `morecore`. */
    method GrowAndTake(nunits: nat, granted: bool) returns (ap: nat)
      requires Ready() && Backed() && nunits >= 1
      modifies this
      ensures Ready() && (ap != 0 <==> granted)
      ensures ap == 0 ==> m == old(m) && brk == old(brk)
      ensures ap != 0 ==> Allocates(old(m), m, ap - 1, nunits) && brk == NewBrk(old(brk), Int32(Ask(nunits) * HEADER))
      ensures ap != 0 ==> m.words.own.Keys == old(m).words.own.Keys + Units(old(brk), Ask(nunits))
    {
      ap := 0;
      var r := Morecore(nunits, granted);
      if r != 0 {
        ghost var grown := m;
        ap := TryTake(nunits);
        AllocatesLater(old(m), grown, m, ap - 1, nunits);
      }
    }

    /** First fit, asking sbrk for more when a whole turn finds nothing and then searching
        again from the new `freep`. On success the caller owns a new block of exactly the
        units it needs, disjoint from every other block; on failure nothing changed for
        anybody.

        The heap stays one that the process has memory for if and only if the request fits
        sbrk's int, or the kernel refuses it, or it is never made because a free block is
        large enough. When it does not, `morecore` takes `Nunits(nbytes)` units from the old
        break on for its own, and the break ends below their end. */
    method Malloc(nbytes: nat, granted: bool) returns (ap: nat)
      requires Valid() && Backed() && nbytes < 0x1_0000_0000
      modifies this
      ensures Ready()
      ensures Backed() <==> Fits(nbytes) || !granted || (old(freep) != 0 && HasRoom(old(m), Nunits(nbytes)))
      ensures ap == 0 <==> !granted && !(old(freep) != 0 && HasRoom(old(m), Nunits(nbytes)))
      ensures ap != 0 ==> Allocates(old(m), m, ap - 1, Nunits(nbytes))
      ensures ap == 0 ==> m.live == old(m).live && LiveKept(m.live, old(m).words, m.words)
      ensures if ap == 0 || (old(freep) != 0 && HasRoom(old(m), Nunits(nbytes)))
              then brk == old(brk) && m.words.own.Keys == old(m).words.own.Keys
              else && brk == NewBrk(old(brk), Int32(Ask(Nunits(nbytes)) * HEADER))
                   && m.words.own.Keys == old(m).words.own.Keys + Units(old(brk), Ask(Nunits(nbytes)))
                   && (brk == old(brk) + Ask(Nunits(nbytes)) <==> Fits(nbytes))
    {
      BreakPast(nbytes, brk);
      Start();
      ghost var started := m;
      ap := TryTake(Nunits(nbytes));
      if ap == 0 {
        ap := GrowAndTake(Nunits(nbytes), granted);
        if ap != 0 {
          Claims(started.words.own.Keys, m.words.own.Keys, old(brk), Ask(Nunits(nbytes)), brk);
        }
      }
      if ap != 0 {
        AllocatesLater(old(m), started, m, ap - 1, Nunits(nbytes));
      }
    }
  }

  /** Claiming `n` units from `hp` on keeps to those below `brk` when the break is past them. */
  lemma {:induction false} Claims(before: set<nat>, after: set<nat>, hp: nat, n: nat, brk: nat)
    requires after == before + Units(hp, n) && n >= 1 && forall x :: x in before ==> x < hp
    ensures (forall x :: x in after ==> x < brk) <==> hp + n <= brk
  {
    assert hp + n - 1 in after;
    if hp + n <= brk {
      assert forall x :: x in after ==> x < brk;
    }
  }

  /** The place of a live block in the list. */
  lemma {:induction false} Placed(m: WellFormed, bp: nat) returns (k: nat)
    requires bp in m.live
    ensures Slot(m.fl, bp, k) && bp in m.words.size && LinkAt(m.fl, m.words.ptr, Succ(k, |m.fl|))
    ensures Chain(m.base, m.fl, m.words.ptr) && forall i :: 0 <= i < |m.fl| ==> m.fl[i] in m.words.size
  {
    Unfold(m);
    UnfoldTiled(m.base, FreeSet(m.fl), m.live, m.words.size, m.words.own);
    assert Block(bp, m.words.size, m.words.own) && m.words.own[bp] == bp;
    assert forall i :: 1 <= i < |m.fl| ==> m.fl[i] in FreeSet(m.fl);
    k := SlotExists(m.fl, bp);
    assert LinkAt(m.fl, m.words.ptr, Succ(k, |m.fl|));
  }

  /** The heap after freeing `bp`. */
  lemma {:induction false} Freed(m: WellFormed, bp: nat, k: nat) returns (r: WellFormed)
    requires bp in m.live && Slot(m.fl, bp, k) && bp in m.words.size
    requires LinkAt(m.fl, m.words.ptr, Succ(k, |m.fl|)) && forall i :: 0 <= i < |m.fl| ==> m.fl[i] in m.words.size
    ensures r.base == m.base && r.live == m.live - {bp}
    ensures r.words.size == FreedSize(m.fl, m.words.size, bp, k)
    ensures r.words.ptr == FreedPtr(m.fl, m.words.ptr, m.words.size, bp, k)
    ensures r.words.own.Keys == m.words.own.Keys
    ensures LiveKept(m.live - {bp}, m.words, r.words) && m.fl[k] in r.fl && HasRoom(r, m.words.size[bp])
  {
    Unfold(m);
    var w := m.words;
    FreedWf(m.base, m.fl, m.live, w.ptr, w.size, w.own, bp, k);
    FreedKeepsLive(m.base, m.fl, m.live, w.ptr, w.size, w.own, bp, k);
    var t := Model(m.base, FreedList(m.fl, w.size, bp, k), m.live - {bp},
                   Words(FreedOwn(m.fl, w.size, w.own, bp, k), FreedPtr(m.fl, w.ptr, w.size, bp, k),
                         FreedSize(m.fl, w.size, bp, k)));
    Unfold(t);
    r := t;
    assert r.fl[k] == m.fl[k];
    assert r.words.size[r.fl[if TouchesPrev(m.fl, w.size, bp, k) then k else k + 1]] >= w.size[bp];
  }

  /** The heap after block `hp` of `n` units came from sbrk. */
  lemma {:induction false} GrownBy(m: WellFormed, hp: nat, n: nat) returns (r: WellFormed)
    requires m.base < hp && n >= 1 && forall x :: x in m.words.own ==> x < hp
    ensures r.base == m.base && r.fl == m.fl && r.words.ptr == m.words.ptr && r.words.size == m.words.size[hp := n]
    ensures Allocates(m, r, hp, n) && r.words.own.Keys == m.words.own.Keys + Units(hp, n)
    ensures forall x :: x in r.words.own ==> x < hp + n
  {
    Unfold(m);
    var w := m.words;
    GrownWf(m.base, m.fl, m.live, w.ptr, w.size, w.own, hp, n);
    var t := Model(m.base, m.fl, m.live + {hp}, Words(Grown(w.own, hp, n), w.ptr, w.size[hp := n]));
    Unfold(t);
    r := t;
  }

  /** The heap after free block `m.fl[j]` is handed out whole. */
  lemma {:induction false} Taken(m: WellFormed, j: nat) returns (r: WellFormed)
    requires 1 <= j < |m.fl|
    ensures m.fl[j] in m.words.ptr && m.fl[j] in m.words.size && m.fl[j - 1] in r.fl && m.fl[j - 1] >= m.base
    ensures r.base == m.base && r.words == m.words.(ptr := m.words.ptr[m.fl[j - 1] := m.words.ptr[m.fl[j]]])
    ensures Allocates(m, r, m.fl[j], m.words.size[m.fl[j]])
  {
    Unfold(m);
    var w := m.words;
    TakenWf(m.base, m.fl, m.live, w.ptr, w.size, w.own, j);
    TakenKeepsLive(m.base, m.fl, m.live, w.ptr, w.size, w.own, j, w.ptr[m.fl[j]]);
    var t := Model(m.base, Removed(m.fl, j), m.live + {m.fl[j]}, w.(ptr := w.ptr[m.fl[j - 1] := w.ptr[m.fl[j]]]));
    assert t.fl[j - 1] == m.fl[j - 1];
    Unfold(t);
    r := t;
  }

  /** The heap after the tail of free block `m.fl[j]`, from `b` on, is handed out. */
  lemma {:induction false} Split(m: WellFormed, j: nat, b: nat) returns (r: WellFormed)
    requires 1 <= j < |m.fl| && m.fl[j] in m.words.size && m.fl[j] < b < m.fl[j] + m.words.size[m.fl[j]]
    ensures r.base == m.base && r.fl == m.fl && r.words.ptr == m.words.ptr && r.words.own.Keys == m.words.own.Keys
    ensures m.fl[j - 1] >= m.base
    ensures var a := m.fl[j];
            && r.words.size == m.words.size[a := b - a][b := a + m.words.size[a] - b]
            && Allocates(m, r, b, a + m.words.size[a] - b)
  {
    Unfold(m);
    var w, a := m.words, m.fl[j];
    SplitWf(m.base, m.fl, m.live, w.ptr, w.size, w.own, j, b);
    assert a in FreeSet(m.fl);
    SplitKeepsLive(m.base, m.fl, m.live, w.ptr, w.size, w.own, a, b);
    var t := Model(m.base, m.fl, m.live + {b},
                   Words(Cut(w.own, a, b), w.ptr, w.size[a := b - a][b := a + w.size[a] - b]));
    Unfold(t);
    r := t;
  }

  /** In a well-formed heap no unit belongs to two blocks, free or live. */
  lemma {:induction false} BlocksDisjoint(m: WellFormed, b: nat, c: nat, x: nat)
    requires b in FreeSet(m.fl) + m.live && c in FreeSet(m.fl) + m.live
    ensures b in m.words.size && c in m.words.size
    ensures b <= x < b + m.words.size[b] && c <= x < c + m.words.size[c] ==> b == c && x in m.words.own
  {
    Unfold(m);
    var size, own := m.words.size, m.words.own;
    UnfoldTiled(m.base, FreeSet(m.fl), m.live, size, own);
    assert Block(b, size, own) && Block(c, size, own);
    if b <= x < b + size[b] && c <= x < c + size[c] {
      assert own[x] == b;
    }
  }

  /** ... and every obtained unit belongs to one. */
  lemma {:induction false} BlocksCover(m: WellFormed, x: nat)
    requires x in m.words.own
    ensures exists b :: b in FreeSet(m.fl) + m.live && b in m.words.size && b <= x < b + m.words.size[b]
  {
    Unfold(m);
    UnfoldTiled(m.base, FreeSet(m.fl), m.live, m.words.size, m.words.own);
    var b := m.words.own[x];
    assert b in FreeSet(m.fl) + m.live && b in m.words.size;
  }
}
