/** The buffer cache (kernel/bio.c): a doubly linked list of buffers in order of use, through
    which all disk blocks are read and written, and its use by the log (kernel/log.c).

    Every method is one critical section; sequences of calls are the interleavings of what
    processes do with buffers. */
module Bcache {
  import opened Params

  const NBUF: Pos
  const HEAD: nat := NBUF       // list head, one past the buffers

  type Block = seq<nat>
  type Where = (nat, nat)       // device and block number

  /** A buffer. `refcnt` counts `users`, who got it and have not released it, and `pins`. */
  datatype Buf = Buf(dev: nat, blockno: nat, valid: bool, refcnt: int, data: Block)

  function Addr(b: Buf): Where { (b.dev, b.blockno) }

  // ---------------------------------------------------------------- the list

  /** What follows position `k` of a ring. */
  function After(ring: seq<nat>, k: nat): nat
    requires k < |ring|
  {
    if k + 1 < |ring| then ring[k + 1] else ring[0]
  }

  ghost predicate LinkOk(next: seq<nat>, prev: seq<nat>, ring: seq<nat>, k: nat)
    requires k < |ring|
  {
    && ring[k] < |next| && After(ring, k) < |prev|
    && next[ring[k]] == After(ring, k) && prev[After(ring, k)] == ring[k]
  }

  ghost predicate Distinct(s: seq<nat>) { forall i, j :: 0 <= i < j < |s| ==> s[i] != s[j] }

  /** Following `next` from the head runs through the ring, and `prev` runs back. */
  ghost predicate Ring(next: seq<nat>, prev: seq<nat>, ring: seq<nat>) {
    && |next| == |prev| == NBUF + 1 && |ring| > 0 && ring[0] == HEAD && Distinct(ring)
    && (forall k :: 0 <= k < |ring| ==> ring[k] <= NBUF)
    && (forall k :: 0 <= k < |ring| ==> LinkOk(next, prev, ring, k))
  }

  function Without(ring: seq<nat>, j: nat): seq<nat>
    requires j < |ring|
  {
    ring[..j] + ring[j + 1..]
  }

  /** Taking a buffer out of the list. */
  lemma {:induction false} UnlinkRing(next: seq<nat>, prev: seq<nat>, ring: seq<nat>, j: nat)
    requires Ring(next, prev, ring) && 0 < j < |ring|
    ensures var b := ring[j];
            b <= NBUF && prev[b] <= NBUF && next[b] <= NBUF
            && Ring(next[prev[b] := next[b]], prev[next[b] := prev[b]], Without(ring, j))
  {
    var b := ring[j];
    assert LinkOk(next, prev, ring, j) && LinkOk(next, prev, ring, j - 1);
    var next', prev', ring' := next[prev[b] := next[b]], prev[next[b] := prev[b]], Without(ring, j);
    forall k | 0 <= k < |ring'| ensures LinkOk(next', prev', ring', k) {
      assert LinkOk(next, prev, ring, if k < j then k else k + 1);
    }
  }

  /** Putting a buffer at the front of the list. */
  lemma {:induction false} FrontRing(next: seq<nat>, prev: seq<nat>, ring: seq<nat>, b: nat)
    requires Ring(next, prev, ring) && b < NBUF && b !in ring
    ensures next[HEAD] <= NBUF
    ensures Ring(next[b := next[HEAD]][HEAD := b], prev[b := HEAD][next[HEAD] := b], [HEAD, b] + ring[1..])
  {
    assert LinkOk(next, prev, ring, 0);
    var f := next[HEAD];
    var next', prev', ring' := next[b := f][HEAD := b], prev[b := HEAD][f := b], [HEAD, b] + ring[1..];
    forall k | 0 <= k < |ring'| ensures LinkOk(next', prev', ring', k) {
      if k >= 2 {
        assert LinkOk(next, prev, ring, k - 1);
      }
    }
  }

  // ---------------------------------------------------------------- contents

  /** What is on the disk and what was last written to each block, which buffer caches a
      block, and who refers to each buffer. */
  datatype Books = Books(disk: map<Where, Block>, latest: map<Where, Block>, at: map<Where, nat>, users: seq<nat>,
                         pins: seq<nat>)

  /** The buffer differs from the disk. */
  ghost predicate Dirty(k: Books, b: Buf) {
    b.dev != 0 && b.valid && Addr(b) in k.disk && k.disk[Addr(b)] != b.data
  }

  ghost predicate BufOk(k: Books, b: Buf, i: nat)
    requires i < |k.users| && i < |k.pins|
  {
    && b.refcnt == k.users[i] + k.pins[i]
    && (b.dev != 0 ==>
          && Addr(b) in k.at && k.at[Addr(b)] == i && Addr(b) in k.disk && Addr(b) in k.latest
          && (if b.valid then b.data == k.latest[Addr(b)] else k.disk[Addr(b)] == k.latest[Addr(b)])
          && (Dirty(k, b) ==> b.refcnt > 0))
  }

  /** A block that no buffer caches is up to date on disk. */
  ghost predicate BlockOk(bufs: seq<Buf>, k: Books, w: Where)
    requires w in k.disk
  {
    && w in k.latest
    && (if w in k.at then k.at[w] < |bufs| && Addr(bufs[k.at[w]]) == w && w.0 != 0 else k.disk[w] == k.latest[w])
  }

  ghost predicate BooksOk(bufs: seq<Buf>, k: Books) {
    && |bufs| == |k.users| == |k.pins| == NBUF && k.latest.Keys == k.disk.Keys && k.at.Keys <= k.disk.Keys
    && (forall i :: 0 <= i < NBUF ==> BufOk(k, bufs[i], i))
    && (forall w :: w in k.disk ==> BlockOk(bufs, k, w))
  }

  /** No two buffers cache the same block. */
  lemma {:induction false} CachedOnce(bufs: seq<Buf>, k: Books, i: nat, j: nat)
    requires BooksOk(bufs, k) && i < NBUF && j < NBUF && bufs[i].dev != 0 && Addr(bufs[i]) == Addr(bufs[j])
    ensures i == j
  {
    assert BufOk(k, bufs[i], i) && BufOk(k, bufs[j], j);
  }

  /** One buffer changes, for the block it caches. */
  lemma {:induction false} BufStep(bufs: seq<Buf>, k: Books, k': Books, i: nat, x: Buf)
    requires BooksOk(bufs, k) && i < NBUF && Addr(x) == Addr(bufs[i]) && |k'.users| == |k'.pins| == NBUF
             && k'.at == k.at
    requires k'.latest.Keys == k.latest.Keys && k'.disk.Keys == k.disk.Keys && BufOk(k', x, i)
    requires forall j :: 0 <= j < NBUF && j != i ==> k'.users[j] == k.users[j] && k'.pins[j] == k.pins[j]
    requires forall w :: w in k.disk && !(w == Addr(x) && x.dev != 0) ==>
               k'.disk[w] == k.disk[w] && k'.latest[w] == k.latest[w]
    ensures BooksOk(bufs[i := x], k')
  {
    var bufs' := bufs[i := x];
    forall j | 0 <= j < NBUF ensures BufOk(k', bufs'[j], j) {
      assert BufOk(k, bufs[j], j) && BufOk(k, bufs[i], i);
    }
    forall w | w in k'.disk ensures BlockOk(bufs', k', w) {
      assert BlockOk(bufs, k, w) && BufOk(k, bufs[i], i);
    }
  }

  // ---------------------------------------------------------------- what the operations do

  /** The buffers and the books on them. */
  datatype Mem = Mem(bufs: seq<Buf>, k: Books)

  ghost predicate MemOk(m: Mem) { BooksOk(m.bufs, m.k) }

  predicate Sized(m: Mem) { |m.bufs| == |m.k.users| == |m.k.pins| == NBUF }

  function Plus(x: nat, d: int): nat { if x + d >= 0 then x + d else 0 }

  ghost function Booted(disk: map<Where, Block>): Mem {
    Mem(seq(NBUF, _ => Buf(0, 0, false, 0, [])),
        Books(disk, disk, map[], seq(NBUF, _ => 0), seq(NBUF, _ => 0)))
  }

  /** Buffer `b` gets `used` more users and `pinned` more pins. */
  ghost function Counted(m: Mem, b: nat, used: int, pinned: int): Mem
    requires Sized(m) && b < NBUF
  {
    var x := m.bufs[b];
    Mem(m.bufs[b := x.(refcnt := x.refcnt + used + pinned)],
        m.k.(users := m.k.users[b := Plus(m.k.users[b], used)], pins := m.k.pins[b := Plus(m.k.pins[b], pinned)]))
  }

  /** Unused buffer `b` is given to block `w`. */
  ghost function Recycled(m: Mem, b: nat, w: Where): Mem
    requires Sized(m) && b < NBUF
  {
    var x := m.bufs[b];
    Mem(m.bufs[b := Buf(w.0, w.1, false, 1, x.data)],
        m.k.(at := (if x.dev != 0 then m.k.at - {Addr(x)} else m.k.at)[w := b], users := m.k.users[b := 1]))
  }

  ghost function Filled(m: Mem, b: nat): Mem
    requires Sized(m) && b < NBUF
  {
    var x := m.bufs[b];
    if x.valid || Addr(x) !in m.k.disk then m else m.(bufs := m.bufs[b := x.(valid := true, data := m.k.disk[Addr(x)])])
  }

  ghost function Modified(m: Mem, b: nat, data: Block): Mem
    requires Sized(m) && b < NBUF
  {
    var x := m.bufs[b];
    Mem(m.bufs[b := x.(data := data)], m.k.(latest := m.k.latest[Addr(x) := data]))
  }

  ghost function Written(m: Mem, b: nat): Mem
    requires Sized(m) && b < NBUF
  {
    m.(k := m.k.(disk := m.k.disk[Addr(m.bufs[b]) := m.bufs[b].data]))
  }

  lemma {:induction false} BootedOk(disk: map<Where, Block>)
    ensures MemOk(Booted(disk))
  {
  }

  /** References come and go; the last one only from a buffer that agrees with the disk. */
  lemma {:induction false} CountedOk(m: Mem, b: nat, used: int, pinned: int)
    requires MemOk(m) && b < NBUF && m.k.users[b] + used >= 0 && m.k.pins[b] + pinned >= 0
    requires Dirty(m.k, m.bufs[b]) ==> m.k.users[b] + used + m.k.pins[b] + pinned > 0
    ensures MemOk(Counted(m, b, used, pinned))
  {
    var m' := Counted(m, b, used, pinned);
    assert BufOk(m.k, m.bufs[b], b);
    BufStep(m.bufs, m.k, m'.k, b, m'.bufs[b]);
  }

  /** A buffer nobody refers to is given to another block: nothing is lost, because it does
      not differ from the disk. */
  lemma {:induction false} RecycledOk(m: Mem, i: nat, w: Where)
    requires MemOk(m) && i < NBUF && m.bufs[i].refcnt == 0 && w in m.k.disk && w !in m.k.at && w.0 != 0
    ensures MemOk(Recycled(m, i, w)) && m.k.users[i] == m.k.pins[i] == 0
  {
    var bufs, k, m' := m.bufs, m.k, Recycled(m, i, w);
    assert BufOk(k, bufs[i], i) && BlockOk(bufs, k, w);
    forall j | 0 <= j < NBUF ensures BufOk(m'.k, m'.bufs[j], j) {
      assert BufOk(k, bufs[j], j);
    }
    forall v | v in m'.k.disk ensures BlockOk(m'.bufs, m'.k, v) {
      assert BlockOk(bufs, k, v);
    }
  }

  lemma {:induction false} FilledOk(m: Mem, b: nat)
    requires MemOk(m) && b < NBUF && m.bufs[b].dev != 0
    ensures var m' := Filled(m, b); MemOk(m') && m'.bufs[b].valid && Addr(m'.bufs[b]) == Addr(m.bufs[b])
    ensures Addr(m.bufs[b]) in m.k.latest && Filled(m, b).bufs[b].data == m.k.latest[Addr(m.bufs[b])]
  {
    assert BufOk(m.k, m.bufs[b], b);
    BufStep(m.bufs, m.k, m.k, b, Filled(m, b).bufs[b]);
    assert m.bufs[b := m.bufs[b]] == m.bufs;
  }

  lemma {:induction false} ModifiedOk(m: Mem, b: nat, data: Block)
    requires MemOk(m) && b < NBUF && m.bufs[b].dev != 0 && m.bufs[b].valid && m.bufs[b].refcnt > 0
    ensures MemOk(Modified(m, b, data))
  {
    assert BufOk(m.k, m.bufs[b], b);
    var m' := Modified(m, b, data);
    BufStep(m.bufs, m.k, m'.k, b, m'.bufs[b]);
  }

  lemma {:induction false} WrittenOk(m: Mem, b: nat)
    requires MemOk(m) && b < NBUF && m.bufs[b].dev != 0 && m.bufs[b].valid
    ensures MemOk(Written(m, b)) && !Dirty(Written(m, b).k, m.bufs[b])
  {
    assert BufOk(m.k, m.bufs[b], b);
    BufStep(m.bufs, m.k, Written(m, b).k, b, m.bufs[b]);
    assert m.bufs[b := m.bufs[b]] == m.bufs;
  }

  // ---------------------------------------------------------------- the cache

  class Cache {
    var bufs: seq<Buf>
    var next: seq<nat>
    var prev: seq<nat>
    var disk: map<Where, Block>
    ghost var order: seq<nat>   // buffers from most to least recently used
    ghost var k: Books

    ghost function M(): Mem
      reads this
    {
      Mem(bufs, k)
    }

    ghost predicate Valid()
      reads this
    {
      && BooksOk(bufs, k) && k.disk == disk
      && |order| == NBUF && Ring(next, prev, [HEAD] + order) && forall i :: 0 <= i < NBUF ==> i in order
    }

    /** binit. */
    constructor (blocks: map<Where, Block>)
      ensures Valid() && M() == Booted(blocks)
    {
      disk := blocks;
      bufs := seq(NBUF, _ => Buf(0, 0, false, 0, []));
      k := Books(blocks, blocks, map[], seq(NBUF, _ => 0), seq(NBUF, _ => 0));
      new;
      var i := 0;
      next := seq(NBUF + 1, _ => HEAD);
      prev := seq(NBUF + 1, _ => HEAD);
      order := [];
      assert LinkOk(next, prev, [HEAD], 0);
      while i < NBUF
        invariant i <= NBUF && |order| == i && Ring(next, prev, [HEAD] + order)
        invariant forall j :: 0 <= j < NBUF ==> (j in order <==> j < i)
        invariant bufs == seq(NBUF, _ => Buf(0, 0, false, 0, [])) && disk == blocks
        invariant k == Books(blocks, blocks, map[], seq(NBUF, _ => 0), seq(NBUF, _ => 0))
      {
        FrontRing(next, prev, [HEAD] + order, i);
        assert [HEAD, i] + ([HEAD] + order)[1..] == [HEAD] + ([i] + order);
        next := next[i := next[HEAD]];
        prev := prev[i := HEAD];
        prev := prev[next[HEAD] := i];
        next := next[HEAD := i];
        order := [i] + order;
        i := i + 1;
      }
      assert BooksOk(bufs, k);
    }

    /** bget's first loop: the buffer that caches the block, or -1. */
    method Find(dev: nat, blockno: nat) returns (b: int)
      requires Valid() && dev != 0
      ensures b == -1 <==> (dev, blockno) !in k.at
      ensures b != -1 ==> 0 <= b < NBUF && (dev, blockno) in k.at && k.at[(dev, blockno)] == b
    {
      var x := next[HEAD];
      ghost var ring := [HEAD] + order;
      ghost var j := 1;
      assert LinkOk(next, prev, ring, 0);
      while x != HEAD
        invariant 1 <= j <= |ring| && x == (if j < |ring| then ring[j] else HEAD)
        invariant forall i :: 1 <= i < j ==> ring[i] < NBUF && Addr(bufs[ring[i]]) != (dev, blockno)
        decreases |ring| - j
      {
        assert LinkOk(next, prev, ring, j) && ring[j] != ring[0];
        assert BufOk(k, bufs[x], x);
        if bufs[x].dev == dev && bufs[x].blockno == blockno {
          return x;
        }
        x := next[x];
        j := j + 1;
      }
      EndOfRing(ring, j);
      NotCached(bufs, k, order, dev, blockno);
      return -1;
    }

    /** bget's second loop: the unused buffer that was least recently moved to the front. */
    method Oldest() returns (b: int)
      requires Valid()
      ensures b == -1 ==> forall i :: 0 <= i < NBUF ==> bufs[i].refcnt != 0
      ensures b != -1 ==> 0 <= b < NBUF && LastUnused(bufs, order, b)
    {
      var x := prev[HEAD];
      ghost var ring := [HEAD] + order;
      ghost var j := |ring| - 1;
      assert LinkOk(next, prev, ring, j);
      while x != HEAD
        invariant 0 <= j < |ring| && x == ring[j]
        invariant forall i :: j < i < |ring| ==> ring[i] < NBUF && bufs[ring[i]].refcnt != 0
        decreases j
      {
        assert LinkOk(next, prev, ring, j - 1) && ring[j] != ring[0];
        if bufs[x].refcnt == 0 {
          LastFound(bufs, order, j);
          return x;
        }
        x := prev[x];
        j := j - 1;
      }
      AllUsed(bufs, order);
      return -1;
    }

    /** bget: a reference to the buffer of the block, recycling one if it is not cached; -1,
        which is a panic, only if every buffer is referred to. */
    method Bget(dev: nat, blockno: nat) returns (b: int)
      requires Valid() && dev != 0 && (dev, blockno) in disk
      modifies `bufs, `k
      ensures Valid() && order == old(order) && disk == old(disk)
      ensures b == -1 <==> (dev, blockno) !in old(k).at && forall i :: 0 <= i < NBUF ==> old(bufs)[i].refcnt != 0
      ensures b == -1 ==> M() == old(M())
      ensures b != -1 ==> 0 <= b < NBUF && Addr(bufs[b]) == (dev, blockno)
      ensures b != -1 && (dev, blockno) in old(k).at ==>
                b == old(k).at[(dev, blockno)] && M() == Counted(old(M()), b, 1, 0)
      ensures b != -1 && (dev, blockno) !in old(k).at ==>
                LastUnused(old(bufs), order, b) && M() == Recycled(old(M()), b, (dev, blockno))
    {
      b := Find(dev, blockno);
      if b != -1 {
        assert BlockOk(bufs, k, (dev, blockno));
        Share(b);
        return;
      }
      b := Oldest();
      if b != -1 {
        Recycle(b, dev, blockno);
      }
    }

    /** One more user of a cached block. */
    method Share(b: nat)
      requires Valid() && b < NBUF
      modifies `bufs, `k
      ensures Valid() && M() == Counted(old(M()), b, 1, 0)
    {
      assert BufOk(k, bufs[b], b);
      CountedOk(M(), b, 1, 0);
      k := Counted(M(), b, 1, 0).k;
      bufs := bufs[b := bufs[b].(refcnt := bufs[b].refcnt + 1)];
    }

    /** An unused buffer gets another block. */
    method Recycle(b: nat, dev: nat, blockno: nat)
      requires Valid() && b < NBUF && bufs[b].refcnt == 0
      requires dev != 0 && (dev, blockno) in disk && (dev, blockno) !in k.at
      modifies `bufs, `k
      ensures Valid() && M() == Recycled(old(M()), b, (dev, blockno))
    {
      RecycledOk(M(), b, (dev, blockno));
      k := Recycled(M(), b, (dev, blockno)).k;
      bufs := bufs[b := Buf(dev, blockno, false, 1, bufs[b].data)];
    }

    /** bread's second half, under the buffer's lock: the buffer holds the latest contents. */
    method Fill(b: nat)
      requires Valid() && b < NBUF && bufs[b].dev != 0
      modifies `bufs
      ensures Valid() && M() == Filled(old(M()), b) && bufs[b].valid
      ensures Addr(bufs[b]) in k.latest && bufs[b].data == k.latest[Addr(bufs[b])]
    {
      FilledOk(M(), b);
      assert BufOk(k, bufs[b], b);
      if !bufs[b].valid {
        bufs := bufs[b := bufs[b].(valid := true, data := disk[Addr(bufs[b])])];
      }
    }

    /** The holder of a buffer changes its contents. */
    method Modify(b: nat, data: Block)
      requires Valid() && b < NBUF && bufs[b].dev != 0 && bufs[b].valid && k.users[b] > 0
      modifies `bufs, `k
      ensures Valid() && M() == Modified(old(M()), b, data)
    {
      assert BufOk(k, bufs[b], b);
      ModifiedOk(M(), b, data);
      k := Modified(M(), b, data).k;
      bufs := bufs[b := bufs[b].(data := data)];
    }

    /** bwrite: the holder writes the buffer to disk. */
    method Bwrite(b: nat)
      requires Valid() && b < NBUF && bufs[b].dev != 0 && bufs[b].valid
      modifies `disk, `k
      ensures Valid() && M() == Written(old(M()), b) && !Dirty(k, bufs[b])
    {
      WrittenOk(M(), b);
      k := Written(M(), b).k;
      disk := disk[Addr(bufs[b]) := bufs[b].data];
    }

    /** bpin. */
    method Bpin(b: nat)
      requires Valid() && b < NBUF
      modifies `bufs, `k
      ensures Valid() && M() == Counted(old(M()), b, 0, 1)
    {
      assert BufOk(k, bufs[b], b);
      CountedOk(M(), b, 0, 1);
      k := Counted(M(), b, 0, 1).k;
      bufs := bufs[b := bufs[b].(refcnt := bufs[b].refcnt + 1)];
    }

    /** bunpin, by someone who still holds the buffer. */
    method Bunpin(b: nat)
      requires Valid() && b < NBUF && k.users[b] > 0 && k.pins[b] > 0
      modifies `bufs, `k
      ensures Valid() && M() == Counted(old(M()), b, 0, -1)
    {
      assert BufOk(k, bufs[b], b);
      CountedOk(M(), b, 0, -1);
      k := Counted(M(), b, 0, -1).k;
      bufs := bufs[b := bufs[b].(refcnt := bufs[b].refcnt - 1)];
    }

    /** brelse. A buffer that differs from the disk must be pinned, or its contents would be
        lost; `CachedLog` shows that the log keeps it so. The last reference moves the buffer
        to the front of the list. */
    method Brelse(b: nat)
      requires Valid() && b < NBUF && k.users[b] > 0 && (Dirty(k, bufs[b]) ==> k.pins[b] > 0)
      modifies this
      ensures Valid() && M() == Counted(old(M()), b, -1, 0)
      ensures if bufs[b].refcnt == 0 then MovedToFront(old(order), order, b) else order == old(order)
    {
      assert BufOk(k, bufs[b], b);
      CountedOk(M(), b, -1, 0);
      k := Counted(M(), b, -1, 0).k;
      bufs := bufs[b := bufs[b].(refcnt := bufs[b].refcnt - 1)];
      if bufs[b].refcnt == 0 {
        MoveToFront(b);
      }
    }

    method MoveToFront(b: nat)
      requires Valid() && b < NBUF
      modifies `next, `prev, `order
      ensures Valid() && MovedToFront(old(order), order, b)
    {
      ghost var ring := [HEAD] + order;
      assert b in order;
      ghost var i :| 0 <= i < |order| && order[i] == b;
      ghost var j := i + 1;
      UnlinkRing(next, prev, ring, j);
      WithoutOne(ring, j);
      ghost var rest := Without(ring, j);
      prev := prev[next[b] := prev[b]];
      next := next[prev[b] := next[b]];
      FrontRing(next, prev, rest, b);
      next := next[b := next[HEAD]];
      prev := prev[b := HEAD];
      prev := prev[next[HEAD] := b];
      next := next[HEAD := b];
      order := [b] + rest[1..];
      assert [HEAD, b] + rest[1..] == [HEAD] + order;
      Moved(old(order), order, b, j);
    }
  }

  /** Buffer `b` is unused and no unused one comes after it in order of use. */
  ghost predicate LastUnused(bufs: seq<Buf>, order: seq<nat>, b: nat) {
    exists j :: LastUnusedAt(bufs, order, b, j)
  }

  ghost predicate LastUnusedAt(bufs: seq<Buf>, order: seq<nat>, b: nat, j: nat) {
    && j < |order| && order[j] == b < |bufs| && bufs[b].refcnt == 0
    && forall i :: j < i < |order| ==> order[i] < |bufs| && bufs[order[i]].refcnt != 0
  }

  /** `b` is first, and the others are in the order they were. */
  ghost predicate MovedToFront(order: seq<nat>, order': seq<nat>, b: nat) {
    exists j :: 0 <= j < |order| && order[j] == b && order' == [b] + Without(order, j)
  }

  lemma {:induction false} NotCached(bufs: seq<Buf>, k: Books, order: seq<nat>, dev: nat, blockno: nat)
    requires BooksOk(bufs, k) && dev != 0 && forall i :: 0 <= i < NBUF ==> i in order
    requires forall i :: 1 <= i < |[HEAD] + order| ==>
               ([HEAD] + order)[i] < NBUF && Addr(bufs[([HEAD] + order)[i]]) != (dev, blockno)
    ensures (dev, blockno) !in k.at
  {
    forall b | 0 <= b < NBUF ensures Addr(bufs[b]) != (dev, blockno) {
      assert b in order;
      var j :| 0 <= j < |order| && order[j] == b;
      assert ([HEAD] + order)[j + 1] == b;
    }
    assert (dev, blockno) in k.at ==> BlockOk(bufs, k, (dev, blockno));
  }

  lemma {:induction false} AllUsed(bufs: seq<Buf>, order: seq<nat>)
    requires |bufs| == NBUF && forall i :: 0 <= i < NBUF ==> i in order
    requires forall i :: 0 < i < |[HEAD] + order| ==>
               ([HEAD] + order)[i] < NBUF && bufs[([HEAD] + order)[i]].refcnt != 0
    ensures forall i :: 0 <= i < NBUF ==> bufs[i].refcnt != 0
  {
    forall i | 0 <= i < NBUF ensures bufs[i].refcnt != 0 {
      assert i in order;
      var j :| 0 <= j < |order| && order[j] == i;
      assert ([HEAD] + order)[j + 1] == i;
    }
  }

  lemma {:induction false} LastFound(bufs: seq<Buf>, order: seq<nat>, j: nat)
    requires 1 <= j <= |order| && order[j - 1] < |bufs| == NBUF && bufs[order[j - 1]].refcnt == 0
    requires forall i :: j < i < |[HEAD] + order| ==>
               ([HEAD] + order)[i] < NBUF && bufs[([HEAD] + order)[i]].refcnt != 0
    ensures LastUnused(bufs, order, order[j - 1])
  {
    forall i | j - 1 < i < |order| ensures order[i] < |bufs| && bufs[order[i]].refcnt != 0 {
      assert ([HEAD] + order)[i + 1] == order[i];
    }
    assert LastUnusedAt(bufs, order, order[j - 1], j - 1);
  }

  lemma {:induction false} EndOfRing(ring: seq<nat>, j: nat)
    requires Distinct(ring) && 1 <= j <= |ring| && (j < |ring| ==> ring[j] == ring[0])
    ensures j == |ring|
  {
  }

  lemma {:induction false} WithoutOne(ring: seq<nat>, j: nat)
    requires Distinct(ring) && 0 < j < |ring|
    ensures ring[j] !in Without(ring, j)
  {
  }

  lemma {:induction false} Moved(order: seq<nat>, order': seq<nat>, b: nat, j: nat)
    requires 1 <= j <= |order| && order[j - 1] == b && order' == [b] + Without([HEAD] + order, j)[1..]
    ensures MovedToFront(order, order', b) && |order'| == |order| && forall x :: x in order ==> x in order'
  {
    assert Without([HEAD] + order, j)[1..] == Without(order, j - 1);
  }
}
