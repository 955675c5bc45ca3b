/** Growing, shrinking, copying and freeing user memory (kernel/vm.c). */
module UserMemory {
  import opened PageTable
  import opened Vm
  import opened PageBudget

  // ---------------------------------------------------------------- freeing tables

  lemma {:induction false} PrunesNothing(w: World, r: nat)
    requires r in w.spaces
    ensures Did(w, w, Prunes(r))
  {
    UnfoldPrunes(w, w, r);
  }

  lemma {:induction false} PrunesTwice(u: World, t: World, w: World, r: nat)
    requires Did(u, t, Prunes(r)) && Did(t, w, Prunes(r))
    ensures Did(u, w, Prunes(r))
  {
    UnfoldPrunes(u, t, r);
    UnfoldPrunes(t, w, r);
    UnfoldPrunes(u, w, r);
  }

  /** `pt` is the table number `k` on a level: the root, the table behind entry k of the
      root, or the table for virtual pages 512k..512k+511. */
  ghost predicate TableAt(sp: Space, level: nat, k: nat, pt: nat) {
    if level == 0 then k in sp.low && sp.low[k] == pt
    else if level == 1 then k in sp.mid && sp.mid[k] == pt
    else pt == sp.root && k == 0
  }

  /** There is no table behind the first `j` entries of table `k`. */
  ghost predicate ClearedBelow(sp: Space, level: nat, k: nat, j: nat) {
    if level == 0 then true
    else if level == 1 then forall p :: p in sp.low && p / 512 == k ==> p % 512 >= j
    else forall i :: i in sp.mid ==> i >= j
  }

  /** With no page mapped, a valid entry is a pointer to a table. */
  lemma {:induction false} ReadAt(w: WfWorld, r: nat, level: nat, k: nat, pt: nat, i: nat)
    requires r in w.spaces && level <= 2 && TableAt(w.spaces[r], level, k, pt) && w.spaces[r].leaf == map[] && i < 512
    ensures pt in w.mem && |w.mem[pt]| == 512
    ensures var pte := w.mem[pt][i];
            if IsValid(pte) then level > 0 && !IsLeaf(pte) && TableAt(w.spaces[r], level - 1, Key(k, i), Ppn(pte))
            else ClearedBelow(w.spaces[r], level, k, i) ==> ClearedBelow(w.spaces[r], level, k, i + 1)
  {
    assert Key(k, i) / 512 == k && Key(k, i) % 512 == i;
    if level == 2 {
      ReadRoot(w, r, i);
    } else if level == 1 {
      ReadMid(w, r, Key(k, i));
      assert forall p :: p in w.spaces[r].low && p / 512 == k && p % 512 == i ==> p == Key(k, i);
    } else {
      ReadLow(w, r, Key(k, i));
    }
  }

  lemma {:induction false} UnlinkLow(w: WfWorld, r: nat, k: nat, pt: nat, i: nat, child: nat)
    requires r in w.spaces && TableAt(w.spaces[r], 1, k, pt) && w.spaces[r].leaf == map[] && i < 512
    requires TableAt(w.spaces[r], 0, Key(k, i), child) && ClearedBelow(w.spaces[r], 1, k, i)
    ensures Key(k, i) / 512 == k && pt in w.mem && |w.mem[pt]| == 512 && child in w.mem && child != pt
    ensures var w' := Released(UnlinkedLow(w, r, Key(k, i)), child);
            && WfAt(w', DEPTH) && Did(w, w', Prunes(r)) && w'.spaces[r].mid == w.spaces[r].mid
            && w'.spaces[r].leaf == map[]
            && ClearedBelow(w'.spaces[r], 1, k, i + 1) && w'.head == child
            && w'.mem == Poke(w.mem, pt, i, 0)[child := LinkedPage(w.head)]
  {
    var p := Key(k, i);
    assert p / 512 == k && p % 512 == i;
    UnlinkedLowWf(w, r, p);
    ReadLow(w, r, p * 512);
    ReadMid(w, r, p);
    ReleasedWf(UnlinkedLow(w, r, p), child);
    UnfoldPrunes(w, Released(UnlinkedLow(w, r, p), child), r);
    assert forall q :: q in w.spaces[r].low && q / 512 == k && q % 512 == i ==> q == p;
  }

  lemma {:induction false} UnlinkMid(w: WfWorld, r: nat, i: nat, child: nat)
    requires r in w.spaces && w.spaces[r].root == r && w.spaces[r].leaf == map[] && i < 512
    requires TableAt(w.spaces[r], 1, i, child) && ClearedBelow(w.spaces[r], 1, i, 512)
             && ClearedBelow(w.spaces[r], 2, 0, i)
    ensures r in w.mem && |w.mem[r]| == 512 && child in w.mem && child != r
    ensures var w' := Released(UnlinkedMid(w, r, i), child);
            && WfAt(w', DEPTH) && Did(w, w', Prunes(r)) && w'.spaces[r].root == r && w'.spaces[r].leaf == map[]
            && ClearedBelow(w'.spaces[r], 2, 0, i + 1) && w'.head == child
            && w'.mem == Poke(w.mem, r, i, 0)[child := LinkedPage(w.head)]
  {
    UnlinkedMidWf(w, r, i);
    ReadMid(w, r, i * 512);
    ReadRoot(w, r, i);
    ReleasedWf(UnlinkedMid(w, r, i), child);
    UnfoldPrunes(w, Released(UnlinkedMid(w, r, i), child), r);
  }

  /** The world once entry `i` of table `k`, and the table behind it, are gone. */
  lemma {:induction false} UnlinkChild(w: WfWorld, r: nat, level: nat, k: nat, pt: nat, i: nat, child: nat)
    returns (w': WfWorld)
    requires r in w.spaces && 1 <= level <= 2 && TableAt(w.spaces[r], level, k, pt) && w.spaces[r].leaf == map[]
             && i < 512
    requires TableAt(w.spaces[r], level - 1, Key(k, i), child) && ClearedBelow(w.spaces[r], level - 1, Key(k, i), 512)
    requires ClearedBelow(w.spaces[r], level, k, i)
    ensures r in w'.spaces && Did(w, w', Prunes(r)) && TableAt(w'.spaces[r], level, k, pt) && w'.spaces[r].leaf == map[]
    ensures ClearedBelow(w'.spaces[r], level, k, i + 1) && w'.head == child
    ensures level == 1 ==> w'.spaces[r].mid == w.spaces[r].mid
    ensures pt in w.mem && |w.mem[pt]| == 512 && child in w.mem && child != pt
    ensures w'.mem == Poke(w.mem[child := LinkedPage(w.head)], pt, i, 0)
  {
    SpaceIn(w, r);
    if level == 1 {
      UnlinkLow(w, r, k, pt, i, child);
      w' := Released(UnlinkedLow(w, r, Key(k, i)), child);
    } else {
      UnlinkMid(w, r, i, child);
      w' := Released(UnlinkedMid(w, r, i), child);
    }
    PokeElsewhere(w.mem, child, LinkedPage(w.head), pt, i, 0);
  }

  /** freewalk: gives back the tables below `pt`, clearing the entries that led to them, and
      then `pt` itself, to which the caller's entry (or the caller) still refers. */
  method Freewalk(m: Physical, pt: nat, ghost r: nat, ghost level: nat, ghost k: nat)
    requires m.Ready() && r in m.w.spaces && level <= 2 && TableAt(m.w.spaces[r], level, k, pt)
             && m.w.spaces[r].leaf == map[]
    modifies m
    ensures r in m.w.spaces && pt in m.w.mem && m.mem == m.w.mem[pt := LinkedPage(m.w.head)] && m.head == pt
    ensures Did(old(m.w), m.w, Prunes(r)) && m.w.spaces[r].leaf == map[]
    ensures TableAt(m.w.spaces[r], level, k, pt) && ClearedBelow(m.w.spaces[r], level, k, 512)
    ensures level <= 1 ==> m.w.spaces[r].mid == old(m.w).spaces[r].mid
    ensures level == 0 ==> m.w == old(m.w)
    decreases level
  {
    PrunesNothing(m.w, r);
    for i := 0 to 512
      invariant m.Ready() && r in m.w.spaces && Did(old(m.w), m.w, Prunes(r)) && m.w.spaces[r].leaf == map[]
      invariant TableAt(m.w.spaces[r], level, k, pt) && ClearedBelow(m.w.spaces[r], level, k, i)
      invariant level <= 1 ==> m.w.spaces[r].mid == old(m.w).spaces[r].mid
      invariant level == 0 ==> m.w == old(m.w)
    {
      ReadAt(m.w, r, level, k, pt, i);
      var pte := m.mem[pt][i];
      if IsValid(pte) && !IsLeaf(pte) {
        FreeChild(m, pt, i, Ppn(pte), r, level, k, old(m.w));
      } else if IsValid(pte) {
        assert false; // panic("freewalk: leaf")
      }
    }
    ReadAt(m.w, r, level, k, pt, 0);
    m.Kfree(pt);
  }

  /** freewalk's recursive call, after which the entry is cleared. */
  method FreeChild(
    m: Physical, pt: nat, i: nat, child: nat, ghost r: nat, ghost level: nat, ghost k: nat, ghost w0: World)
    requires m.Ready() && r in m.w.spaces && 1 <= level <= 2 && TableAt(m.w.spaces[r], level, k, pt)
             && m.w.spaces[r].leaf == map[]
    requires i < 512 && TableAt(m.w.spaces[r], level - 1, Key(k, i), child) && ClearedBelow(m.w.spaces[r], level, k, i)
    requires Did(w0, m.w, Prunes(r))
    modifies m
    ensures m.Ready() && r in m.w.spaces && Did(w0, m.w, Prunes(r)) && m.w.spaces[r].leaf == map[]
    ensures TableAt(m.w.spaces[r], level, k, pt) && ClearedBelow(m.w.spaces[r], level, k, i + 1)
    ensures level == 1 ==> m.w.spaces[r].mid == old(m.w).spaces[r].mid
    decreases level, 0
  {
    Freewalk(m, child, r, level - 1, Key(k, i));
    ghost var t := m.w;
    StillThere(old(m.w), t, r, level, k, pt, i);
    ghost var w' := UnlinkChild(t, r, level, k, pt, i, child);
    m.mem := Poke(m.mem, pt, i, 0);
    m.w := w';
    PrunesTwice(w0, old(m.w), t, r);
    PrunesTwice(w0, t, w', r);
  }

  /** Freeing what is below an entry leaves the table that holds the entry in place. */
  lemma {:induction false} StillThere(w: WfWorld, w': WfWorld, r: nat, level: nat, k: nat, pt: nat, i: nat)
    requires r in w.spaces && r in w'.spaces && 1 <= level <= 2 && TableAt(w.spaces[r], level, k, pt)
    requires ClearedBelow(w.spaces[r], level, k, i)
    requires w'.spaces[r].mid == w.spaces[r].mid && (level == 1 ==> w' == w)
    ensures TableAt(w'.spaces[r], level, k, pt) && ClearedBelow(w'.spaces[r], level, k, i)
  {
    SpaceIn(w, r);
    SpaceIn(w', r);
  }

  // ---------------------------------------------------------------- sizes

  /** PGROUNDUP(sz) / PGSIZE: how many pages hold `sz` bytes. */
  function Up(sz: nat): nat { (sz + (PGSIZE - 1)) / PGSIZE }

  /** Where user memory ends at the latest. */
  const MAXSZ: nat := TRAPFRAME * PGSIZE

  lemma UpMonotone(a: nat, b: nat)
    requires a <= b
    ensures Up(a) <= Up(b)
  {
  }

  /** `n` zeroed pages from page `lo` on. */
  ghost function ZeroPages(lo: nat, n: nat, perm: nat): (m: map<nat, Page>)
    ensures forall v :: v in m <==> lo <= v < lo + n
    ensures forall v :: v in m ==> m[v] == Page(perm, Zeros())
  {
    if n == 0 then map[] else ZeroPages(lo, n - 1, perm)[lo + n - 1 := Page(perm, Zeros())]
  }

  /** How many pages lie between two sizes. */
  function Gap(lo: nat, hi: nat): nat { if Up(lo) <= Up(hi) then Up(hi) - Up(lo) else 0 }

  // ---------------------------------------------------------------- operations

  /** uvmdealloc: shrinks to `newsz`, unless that is not smaller. */
  method Uvmdealloc(m: Physical, r: nat, oldsz: nat, newsz: nat) returns (sz: nat)
    requires m.Ready() && r in m.w.spaces && oldsz <= MAXSZ
    modifies m
    ensures m.Ready() && r in m.w.spaces
    ensures newsz >= oldsz ==> sz == oldsz && m.w == old(m.w)
    ensures newsz < oldsz ==>
              sz == newsz && Up(newsz) <= Up(oldsz) && Did(old(m.w), m.w, Unmaps(r, Up(newsz), Up(oldsz) - Up(newsz)))
  {
    if newsz >= oldsz {
      return oldsz;
    }
    UpMonotone(newsz, oldsz);
    if Up(newsz) < Up(oldsz) {
      m.Uvmunmap(r, Up(newsz), Up(oldsz) - Up(newsz), true);
    } else {
      UnmapsNothing(m.w, r, Up(newsz), 0);
    }
    return newsz;
  }

  /** Between the two worlds zeroed pages lo .. lo + n - 1 were added, at what they cost. */
  ghost predicate Zeroed(u: World, w: World, r: nat, lo: nat, n: nat, perm: nat) {
    ZeroedAt(u, w, r, lo, n, perm, DEPTH)
  }

  /** The definition of `Zeroed`, folded: it is unfolded only by calling `ZeroedIs`. */
  ghost predicate ZeroedAt(u: World, w: World, r: nat, lo: nat, n: nat, perm: nat, depth: nat) {
    if depth == 0 then ZeroedBody(u, w, r, lo, n, perm) else ZeroedAt(u, w, r, lo, n, perm, depth - 1)
  }

  lemma {:induction false} ZeroedAtIs(u: World, w: World, r: nat, lo: nat, n: nat, perm: nat, depth: nat)
    ensures ZeroedAt(u, w, r, lo, n, perm, depth) <==> ZeroedBody(u, w, r, lo, n, perm)
  {
    if depth > 0 {
      ZeroedAtIs(u, w, r, lo, n, perm, depth - 1);
    }
  }

  lemma {:induction false} ZeroedIs(u: World, w: World, r: nat, lo: nat, n: nat, perm: nat)
    ensures Zeroed(u, w, r, lo, n, perm) <==> ZeroedBody(u, w, r, lo, n, perm)
  {
    ZeroedAtIs(u, w, r, lo, n, perm, DEPTH);
  }

  lemma {:induction false} ZeroedNothing(u: WfWorld, r: nat, lo: nat, perm: nat)
    requires r in u.spaces
    ensures Zeroed(u, u, r, lo, 0, perm)
  {
    FillsNothing(u, r);
    SpentNothing(u, r);
    ZeroedIs(u, u, r, lo, 0, perm);
  }

  lemma {:induction false} ZeroedAll(u: World, w: World, r: nat, lo: nat, n: nat, perm: nat)
    requires Zeroed(u, w, r, lo, n, perm)
    ensures r in w.spaces && Did(u, w, Fills(r, ZeroPages(lo, n, perm)))
    ensures r in u.spaces && |u.free| >= Need(u.spaces[r], Range(lo, n))
  {
    ZeroedIs(u, w, r, lo, n, perm);
    RangeEnough(u, w, r, lo, n);
  }

  ghost predicate ZeroedBody(u: World, w: World, r: nat, lo: nat, n: nat, perm: nat) {
    r in w.spaces && Did(u, w, Fills(r, ZeroPages(lo, n, perm))) && Spent(u, w, r, Range(lo, n), n)
  }

  lemma {:induction false} ZeroedNext(u: WfWorld, t: WfWorld, r: nat, lo: nat, v: nat, perm: nat)
    requires lo <= v < TRAPFRAME && Zeroed(u, t, r, lo, v - lo, perm) && r in u.spaces && v !in u.spaces[r].leaf
    ensures r in t.spaces && v !in t.spaces[r].leaf
  {
    ZeroedIs(u, t, r, lo, v - lo, perm);
    FillsKeeps(u, t, r, ZeroPages(lo, v - lo, perm), v);
  }

  lemma {:induction false} ZeroedMore(u: WfWorld, t: WfWorld, w: WfWorld, r: nat, lo: nat, v: nat, perm: nat)
    requires lo <= v && Zeroed(u, t, r, lo, v - lo, perm) && r in w.spaces
    requires Did(t, w, Fills(r, map[v := Page(perm, Zeros())])) && Spent(t, w, r, {v}, 1)
    ensures Zeroed(u, w, r, lo, v + 1 - lo, perm)
  {
    ZeroedIs(u, t, r, lo, v - lo, perm);
    FillsMore(u, t, w, r, ZeroPages(lo, v - lo, perm), v, Page(perm, Zeros()));
    RangeSpent(u, t, w, r, lo, v - lo, v - lo, 1);
    ZeroedIs(u, w, r, lo, v + 1 - lo, perm);
  }

  lemma {:induction false} ZeroedNoMore(
    u: WfWorld, t: WfWorld, w: WfWorld, r: nat, lo: nat, v: nat, perm: nat, n: nat)
    requires lo <= v < lo + n && Zeroed(u, t, r, lo, v - lo, perm) && r in u.spaces
    requires Did(t, w, Grew(r)) && r in t.spaces && |t.free| < Need(t.spaces[r], {v})
    ensures Did(u, w, Fills(r, ZeroPages(lo, v - lo, perm))) && |u.free| < Need(u.spaces[r], Range(lo, n))
  {
    ZeroedIs(u, t, r, lo, v - lo, perm);
    RangeRanOut(u, t, r, lo, v - lo, n);
    FillsThenGrew(u, t, w, r, ZeroPages(lo, v - lo, perm));
  }

  /** One turn of uvmalloc's loop, up to the failure of kalloc or mappages. */
  method AddZeroed(m: Physical, r: nat, lo: nat, v: nat, perm: nat, ghost u: WfWorld, ghost n: nat) returns (ok: bool)
    requires m.Ready() && lo <= v < lo + n <= TRAPFRAME && perm < 1024 && perm / 2 % 8 != 0
    requires Zeroed(u, m.w, r, lo, v - lo, perm) && r in u.spaces && v !in u.spaces[r].leaf
    modifies m
    ensures m.Ready() && r in m.w.spaces
    ensures ok ==> Zeroed(u, m.w, r, lo, v + 1 - lo, perm)
    ensures !ok ==> Did(u, m.w, Fills(r, ZeroPages(lo, v - lo, perm))) && |u.free| < Need(u.spaces[r], Range(lo, n))
  {
    ghost var t := m.w;
    ZeroedNext(u, t, r, lo, v, perm);
    var f := m.AddPage(r, v, perm, Zeros());
    ok := f != 0;
    if ok {
      ZeroedMore(u, t, m.w, r, lo, v, perm);
    } else {
      ZeroedNoMore(u, t, m.w, r, lo, v, perm, n);
    }
  }

  /** uvmalloc's uvmdealloc after a failure. */
  method Undo(m: Physical, r: nat, lo: nat, n: nat, ghost perm: nat, ghost u: WfWorld)
    requires m.Ready() && r in m.w.spaces && lo + n <= TRAPFRAME && r in u.spaces
    requires Did(u, m.w, Fills(r, ZeroPages(lo, n, perm))) && forall v :: lo <= v < lo + n ==> v !in u.spaces[r].leaf
    modifies m
    ensures m.Ready() && r in m.w.spaces && Did(u, m.w, Grew(r))
  {
    ghost var t := m.w;
    m.Uvmunmap(r, lo, n, true);
    FillsThenUnmaps(u, t, m.w, r, ZeroPages(lo, n, perm), lo, n);
  }

  /** One turn of uvmalloc's loop, and what a failure leads to. */
  method AddOrUndo(m: Physical, r: nat, lo: nat, v: nat, perm: nat, ghost u: WfWorld, ghost n: nat) returns (ok: bool)
    requires m.Ready() && lo <= v < lo + n <= TRAPFRAME && perm < 1024 && perm / 2 % 8 != 0 && r in u.spaces
    requires Zeroed(u, m.w, r, lo, v - lo, perm) && forall a :: lo <= a < lo + n ==> a !in u.spaces[r].leaf
    modifies m
    ensures m.Ready() && r in m.w.spaces && (ok ==> Zeroed(u, m.w, r, lo, v + 1 - lo, perm))
    ensures !ok ==> Did(u, m.w, Grew(r)) && |u.free| < Need(u.spaces[r], Range(lo, n))
  {
    ok := AddZeroed(m, r, lo, v, perm, u, n);
    if !ok {
      Undo(m, r, lo, v - lo, perm, u);
    }
  }

  /** uvmalloc: adds zeroed pages up to `newsz`, or none at all. It fails exactly when there are
      not enough free pages for them and for the page tables they need. */
  method Uvmalloc(m: Physical, r: nat, oldsz: nat, newsz: nat, xperm: nat) returns (sz: nat, ghost ok: bool)
    requires m.Ready() && r in m.w.spaces && newsz <= MAXSZ && xperm in {0, PTE_W, PTE_X}
    requires forall v :: Up(oldsz) <= v < Up(newsz) ==> v !in m.w.spaces[r].leaf
    modifies m
    ensures m.Ready() && r in m.w.spaces
    ensures newsz < oldsz ==> sz == oldsz && m.w == old(m.w)
    ensures newsz >= oldsz && ok ==>
              && sz == newsz && Up(oldsz) <= Up(newsz)
              && Did(old(m.w), m.w, Fills(r, ZeroPages(Up(oldsz), Up(newsz) - Up(oldsz), PTE_R + PTE_U + xperm)))
    ensures newsz >= oldsz && !ok ==> sz == 0 && Did(old(m.w), m.w, Grew(r))
    ensures newsz >= oldsz ==>
              (ok <==> |old(m.w).free| >= Need(old(m.w).spaces[r], Range(Up(oldsz), Gap(oldsz, newsz))))
  {
    if newsz < oldsz {
      return oldsz, true;
    }
    UpMonotone(oldsz, newsz);
    var grown := ZeroUpTo(m, r, Up(oldsz), newsz, PTE_R + PTE_U + xperm, Up(newsz) - Up(oldsz));
    return if grown then newsz else 0, grown;
  }

  /** uvmalloc's loop, which starts at page `lo` and has `n` pages to add. */
  method ZeroUpTo(m: Physical, r: nat, lo: nat, newsz: nat, perm: nat, ghost n: nat) returns (ok: bool)
    requires m.Ready() && r in m.w.spaces && lo + n <= TRAPFRAME && perm < 1024 && perm / 2 % 8 != 0
    requires newsz <= (lo + n) * PGSIZE && (n > 0 ==> (lo + n) * PGSIZE < newsz + PGSIZE)
    requires forall v :: lo <= v < lo + n ==> v !in m.w.spaces[r].leaf
    modifies m
    ensures m.Ready() && r in m.w.spaces
    ensures ok ==> Did(old(m.w), m.w, Fills(r, ZeroPages(lo, n, perm)))
    ensures !ok ==> Did(old(m.w), m.w, Grew(r))
    ensures ok <==> |old(m.w).free| >= Need(old(m.w).spaces[r], Range(lo, n))
  {
    ghost var u := m.w;
    ZeroedNothing(u, r, lo, perm);
    var v := lo;
    while v * PGSIZE < newsz
      invariant lo <= v <= lo + n && m.Ready() && Zeroed(u, m.w, r, lo, v - lo, perm)
      decreases lo + n - v
    {
      ok := AddOrUndo(m, r, lo, v, perm, u, n);
      if !ok {
        return false;
      }
      v := v + 1;
    }
    ZeroedAll(u, m.w, r, lo, n, perm);
    return true;
  }

  /** vmfault: a zeroed page for an address below the size that has none yet. */
  method Vmfault(m: Physical, r: nat, psz: nat, va: nat) returns (f: nat)
    requires m.Ready() && r in m.w.spaces && psz <= MAXSZ
    modifies m
    ensures m.Ready() && r in m.w.spaces
    ensures va >= psz || va / PGSIZE in old(m.w).spaces[r].leaf ==> f == 0 && m.w == old(m.w)
    ensures va < psz && va / PGSIZE !in old(m.w).spaces[r].leaf && f == 0 ==> Did(old(m.w), m.w, Grew(r))
    ensures f != 0 ==> && Did(old(m.w), m.w, Fills(r, map[va / PGSIZE := Page(PTE_W + PTE_U + PTE_R, Zeros())]))
                       && va / PGSIZE in m.w.spaces[r].page && f == m.w.spaces[r].page[va / PGSIZE]
    ensures f != 0 <==> && va < psz && va / PGSIZE !in old(m.w).spaces[r].leaf
                        && |old(m.w).free| >= Need(old(m.w).spaces[r], {va / PGSIZE})
  {
    if va >= psz {
      return 0;
    }
    var v := va / PGSIZE;
    var mapped := Ismapped(m, r, v);
    if mapped {
      return 0;
    }
    f := m.AddPage(r, v, PTE_W + PTE_U + PTE_R, Zeros());
  }

  method Ismapped(m: Physical, r: nat, v: nat) returns (mapped: bool)
    requires m.Ready() && r in m.w.spaces && v < PAGES
    modifies m
    ensures m.Ready() && m.w == old(m.w)
    ensures mapped <==> v in m.w.spaces[r].leaf
  {
    var ok, pt, idx := m.Walk(r, v * PGSIZE, false);
    if !ok {
      NotLeaf(m.w, r, v);
      return false;
    }
    ReadLow(m.w, r, v);
    return IsValid(m.mem[pt][idx]);
  }

  // ---------------------------------------------------------------- copying

  /** The user page `v` of space `o`: its flags and contents. */
  ghost function PageOf(w: World, o: nat, v: nat): Page {
    if o in w.spaces && v in w.spaces[o].leaf && v in w.spaces[o].page && w.spaces[o].page[v] in w.mem
    then Page(Flags(w.spaces[o].leaf[v]), w.mem[w.spaces[o].page[v]])
    else Page(0, [])
  }

  /** The pages that space `o` has below `n`. */
  ghost function PagesBelow(w: World, o: nat, n: nat): (m: map<nat, Page>)
    requires o in w.spaces
    ensures forall v :: v in m <==> v in w.spaces[o].leaf && v < n
    ensures forall v :: v in m ==> m[v] == PageOf(w, o, v)
  {
    map v | v in w.spaces[o].leaf && v < n :: PageOf(w, o, v)
  }

  /** The user pages that space `o` has below `n`. */
  ghost function Have(w: World, o: nat, n: nat): set<nat>
    requires o in w.spaces
  {
    if n == 0 then {}
    else if n - 1 in w.spaces[o].leaf then Have(w, o, n - 1) + {n - 1}
    else Have(w, o, n - 1)
  }

  lemma {:induction false} HaveIs(w: World, o: nat, n: nat)
    requires o in w.spaces
    ensures forall v :: v in Have(w, o, n) <==> v in w.spaces[o].leaf && v < n
  {
    if n > 0 {
      HaveIs(w, o, n - 1);
    }
  }

  lemma {:induction false} HaveOneMore(w: World, o: nat, n: nat)
    requires o in w.spaces
    ensures Have(w, o, n + 1) == if n in w.spaces[o].leaf then Have(w, o, n) + {n} else Have(w, o, n)
    ensures n !in Have(w, o, n)
  {
    HaveIs(w, o, n);
  }

  lemma {:induction false} HaveMore(w: World, o: nat, n: nat, m: nat)
    requires o in w.spaces && n <= m
    ensures Have(w, o, n) <= Have(w, o, m)
  {
    HaveIs(w, o, n);
    HaveIs(w, o, m);
  }

  lemma {:induction false} HaveSame(w: World, w': World, o: nat, n: nat)
    requires o in w.spaces && o in w'.spaces && w'.spaces[o].leaf == w.spaces[o].leaf
    ensures Have(w', o, n) == Have(w, o, n)
  {
    HaveIs(w, o, n);
    HaveIs(w', o, n);
  }

  lemma {:induction false} PagesOneMore(w: World, o: nat, n: nat)
    requires o in w.spaces
    ensures PagesBelow(w, o, n + 1) ==
            if n in w.spaces[o].leaf then PagesBelow(w, o, n)[n := PageOf(w, o, n)] else PagesBelow(w, o, n)
  {
  }

  lemma FlagsLeaf(pte: nat)
    ensures IsLeaf(pte) <==> Flags(pte) / 2 % 8 != 0
  {
  }

  /** While pages are added to one space, another space and its pages stay as they were. */
  lemma {:induction false} SourceIntact(u: WfWorld, t: WfWorld, r: nat, o: nat, want: map<nat, Page>, v: nat)
    requires Did(u, t, Fills(r, want)) && o in u.spaces && o != r
    ensures o in t.spaces && t.spaces[o].leaf == u.spaces[o].leaf
    ensures v in u.spaces[o].leaf && v < TRAPFRAME ==>
              && PageOf(t, o, v) == PageOf(u, o, v) && |PageOf(t, o, v).data| == 512
              && Ppn(t.spaces[o].leaf[v]) in t.mem
              && PageOf(t, o, v).data == t.mem[Ppn(t.spaces[o].leaf[v])] && IsLeaf(t.spaces[o].leaf[v])
  {
    UnfoldFills(u, t, r, want);
    if v in u.spaces[o].leaf && v < TRAPFRAME {
      LeafHasTables(u, o, v);
      LeafHasTables(t, o, v);
      PageThere(u, u.spaces[o].page[v]);
      PageThere(t, u.spaces[o].page[v]);
    }
  }

  lemma {:induction false} PageThere(w: WfWorld, f: nat)
    requires f in w.role
    ensures f in w.mem && |w.mem[f]| == 512 && f != 0
  {
    UnfoldWorld(w);
  }

  /** Between the two worlds space `r` got the pages of `o` below `v`, at what they cost. */
  ghost predicate CopiedTo(u: World, w: World, o: nat, r: nat, v: nat)
    requires o in u.spaces
  {
    CopiedAt(u, w, o, r, v, DEPTH)
  }

  /** The definition of `CopiedTo`, folded: it is unfolded only by calling `CopiedIs`. */
  ghost predicate CopiedAt(u: World, w: World, o: nat, r: nat, v: nat, depth: nat)
    requires o in u.spaces
  {
    if depth == 0 then CopiedBody(u, w, o, r, v) else CopiedAt(u, w, o, r, v, depth - 1)
  }

  lemma {:induction false} CopiedAtIs(u: World, w: World, o: nat, r: nat, v: nat, depth: nat)
    requires o in u.spaces
    ensures CopiedAt(u, w, o, r, v, depth) <==> CopiedBody(u, w, o, r, v)
  {
    if depth > 0 {
      CopiedAtIs(u, w, o, r, v, depth - 1);
    }
  }

  lemma {:induction false} CopiedIs(u: World, w: World, o: nat, r: nat, v: nat)
    requires o in u.spaces
    ensures CopiedTo(u, w, o, r, v) <==> CopiedBody(u, w, o, r, v)
  {
    CopiedAtIs(u, w, o, r, v, DEPTH);
  }

  ghost predicate CopiedBody(u: World, w: World, o: nat, r: nat, v: nat)
    requires o in u.spaces
  {
    && r in w.spaces && Did(u, w, Fills(r, PagesBelow(u, o, v)))
    && Spent(u, w, r, Have(u, o, v), |Have(u, o, v)|)
  }

  lemma {:induction false} CopiedNothing(u: WfWorld, o: nat, r: nat)
    requires o in u.spaces && r in u.spaces
    ensures CopiedTo(u, u, o, r, 0)
  {
    FillsNothing(u, r);
    SpentNothing(u, r);
    assert PagesBelow(u, o, 0) == map[] && Have(u, o, 0) == {};
    CopiedIs(u, u, o, r, 0);
  }

  lemma {:induction false} CopiedAll(u: World, w: World, o: nat, r: nat, n: nat)
    requires o in u.spaces && CopiedTo(u, w, o, r, n)
    ensures r in w.spaces && Did(u, w, Fills(r, PagesBelow(u, o, n)))
    ensures r in u.spaces && |u.free| >= Need(u.spaces[r], Have(u, o, n))
  {
    CopiedIs(u, w, o, r, n);
    SpentEnough(u, w, r, Have(u, o, n), |Have(u, o, n)|);
  }

  /** One turn of `uvmcopy`'s loop. */
  method CopyOne(m: Physical, o: nat, r: nat, v: nat, ghost u: WfWorld, ghost n: nat) returns (ok: bool)
    requires m.Ready() && o in u.spaces && r in u.spaces && r in m.w.spaces && o != r && v < TRAPFRAME
             && v !in u.spaces[r].leaf
    requires CopiedTo(u, m.w, o, r, v) && v < n
    modifies m
    ensures m.Ready() && r in m.w.spaces
    ensures ok ==> CopiedTo(u, m.w, o, r, v + 1)
    ensures !ok ==> Did(u, m.w, Fills(r, PagesBelow(u, o, v))) && |u.free| < Need(u.spaces[r], Have(u, o, n))
  {
    ghost var t := m.w;
    CopyNext(u, t, o, r, v);
    var found, pt, idx := m.Walk(o, v * PGSIZE, false);
    if !found {
      NotLeaf(m.w, o, v);
      return true;
    }
    ReadLow(m.w, o, v);
    var pte := m.mem[pt][idx];
    if !IsValid(pte) {
      return true;
    }
    FlagsLeaf(pte);
    var f := m.AddPage(r, v, Flags(pte), m.mem[Ppn(pte)]);
    ok := f != 0;
    if ok {
      CopiedMore(u, t, m.w, o, r, v);
    } else {
      CopiedNoMore(u, t, m.w, o, r, v, n);
    }
  }

  /** What the source space looks like when the loop comes to page `v`. */
  lemma {:induction false} CopyNext(u: WfWorld, t: WfWorld, o: nat, r: nat, v: nat)
    requires o in u.spaces && r in u.spaces && o != r && CopiedTo(u, t, o, r, v) && v < TRAPFRAME
    requires v !in u.spaces[r].leaf
    ensures r in t.spaces && o in t.spaces && t.spaces[o].leaf == u.spaces[o].leaf && v !in t.spaces[r].leaf
    ensures v in u.spaces[o].leaf ==>
              && Ppn(t.spaces[o].leaf[v]) in t.mem && |t.mem[Ppn(t.spaces[o].leaf[v])]| == 512
              && IsLeaf(t.spaces[o].leaf[v])
              && PageOf(u, o, v) == Page(Flags(t.spaces[o].leaf[v]), t.mem[Ppn(t.spaces[o].leaf[v])])
    ensures v !in u.spaces[o].leaf ==> CopiedTo(u, t, o, r, v + 1)
  {
    CopiedIs(u, t, o, r, v);
    SourceIntact(u, t, r, o, PagesBelow(u, o, v), v);
    FillsKeeps(u, t, r, PagesBelow(u, o, v), v);
    PagesOneMore(u, o, v);
    HaveOneMore(u, o, v);
    CopiedIs(u, t, o, r, v + 1);
  }

  lemma {:induction false} CopiedMore(u: WfWorld, t: WfWorld, w: WfWorld, o: nat, r: nat, v: nat)
    requires o in u.spaces && v in u.spaces[o].leaf && CopiedTo(u, t, o, r, v) && r in w.spaces
    requires Did(t, w, Fills(r, map[v := PageOf(u, o, v)])) && Spent(t, w, r, {v}, 1)
    ensures CopiedTo(u, w, o, r, v + 1)
  {
    CopiedIs(u, t, o, r, v);
    FillsMore(u, t, w, r, PagesBelow(u, o, v), v, PageOf(u, o, v));
    PagesOneMore(u, o, v);
    HaveOneMore(u, o, v);
    SpentMore(u, t, w, r, Have(u, o, v), v);
    CopiedIs(u, w, o, r, v + 1);
  }

  lemma {:induction false} CopiedNoMore(u: WfWorld, t: WfWorld, w: WfWorld, o: nat, r: nat, v: nat, n: nat)
    requires o in u.spaces && r in u.spaces && v in u.spaces[o].leaf && v < n && CopiedTo(u, t, o, r, v)
    requires Did(t, w, Grew(r)) && r in t.spaces && |t.free| < Need(t.spaces[r], {v})
    ensures Did(u, w, Fills(r, PagesBelow(u, o, v))) && |u.free| < Need(u.spaces[r], Have(u, o, n))
  {
    CopiedIs(u, t, o, r, v);
    FillsThenGrew(u, t, w, r, PagesBelow(u, o, v));
    HaveOneMore(u, o, v);
    HaveMore(u, o, v + 1, n);
    RanOut(u, t, r, Have(u, o, v), v, Have(u, o, n));
  }

  /** uvmcopy: the child gets every page the parent has below `sz`, with the same flags and
      contents, or none. It fails exactly when there are not enough free pages for them and for
      the page tables they need. */
  method Uvmcopy(m: Physical, o: nat, r: nat, sz: nat) returns (ok: bool)
    requires m.Ready() && o in m.w.spaces && r in m.w.spaces && o != r && sz <= MAXSZ
    requires forall v :: v < Up(sz) ==> v !in m.w.spaces[r].leaf
    modifies m
    ensures m.Ready() && r in m.w.spaces
    ensures ok ==> CopiedTo(old(m.w), m.w, o, r, Up(sz))
    ensures !ok ==> Did(old(m.w), m.w, Grew(r))
    ensures ok <==> |old(m.w).free| >= Need(old(m.w).spaces[r], Have(old(m.w), o, Up(sz)))
  {
    ok := CopyBelow(m, o, r, sz, Up(sz));
  }

  /** uvmcopy's loop, where `n` is the number of pages that `sz` bytes reach into. */
  method CopyBelow(m: Physical, o: nat, r: nat, sz: nat, ghost n: nat) returns (ok: bool)
    requires m.Ready() && o in m.w.spaces && r in m.w.spaces && o != r && n <= TRAPFRAME
    requires sz <= n * PGSIZE < sz + PGSIZE && forall v :: 0 <= v < n ==> v !in m.w.spaces[r].leaf
    modifies m
    ensures m.Ready() && r in m.w.spaces
    ensures ok ==> CopiedTo(old(m.w), m.w, o, r, n)
    ensures !ok ==> Did(old(m.w), m.w, Grew(r))
    ensures ok <==> |old(m.w).free| >= Need(old(m.w).spaces[r], Have(old(m.w), o, n))
  {
    ghost var u := m.w;
    var v := 0;
    CopiedNothing(u, o, r);
    while v * PGSIZE < sz
      invariant v <= n && m.Ready() && CopiedTo(u, m.w, o, r, v)
      decreases n - v
    {
      ok := CopyOrUndo(m, o, r, v, u, n);
      if !ok {
        return false;
      }
      v := v + 1;
    }
    CopiedAll(u, m.w, o, r, n);
    return true;
  }

  /** One turn of uvmcopy's loop, and what a failure leads to. */
  method CopyOrUndo(m: Physical, o: nat, r: nat, v: nat, ghost u: WfWorld, ghost n: nat) returns (ok: bool)
    requires m.Ready() && o in u.spaces && r in u.spaces && o != r && v < n <= TRAPFRAME
    requires CopiedTo(u, m.w, o, r, v) && forall a :: 0 <= a < n ==> a !in u.spaces[r].leaf
    modifies m
    ensures m.Ready() && r in m.w.spaces && (ok ==> CopiedTo(u, m.w, o, r, v + 1))
    ensures !ok ==> Did(u, m.w, Grew(r)) && |u.free| < Need(u.spaces[r], Have(u, o, n))
  {
    CopiedIs(u, m.w, o, r, v);
    ok := CopyOne(m, o, r, v, u, n);
    if !ok {
      UndoCopy(m, o, r, v, u);
    }
  }

  /** uvmcopy's uvmunmap after a failure. */
  method UndoCopy(m: Physical, ghost o: nat, r: nat, v: nat, ghost u: WfWorld)
    requires m.Ready() && r in m.w.spaces && v <= TRAPFRAME && r in u.spaces && o in u.spaces
    requires Did(u, m.w, Fills(r, PagesBelow(u, o, v))) && forall a :: 0 <= a < v ==> a !in u.spaces[r].leaf
    modifies m
    ensures m.Ready() && r in m.w.spaces && Did(u, m.w, Grew(r))
  {
    ghost var t := m.w;
    m.Uvmunmap(r, 0, v, true);
    FillsThenUnmaps(u, t, m.w, r, PagesBelow(u, o, v), 0, v);
  }

  // ---------------------------------------------------------------- whole address spaces

  /** Space `r` is gone and every page it had is free; everything else is as it was. */
  ghost predicate Gone(w: World, w': World, r: nat) {
    && SameOthers(w, w', r) && r in w.spaces && r !in w'.spaces && w'.role.Keys == w.role.Keys
    && (forall f :: f in w.role ==> w'.role[f] == if Within(w.role[f], r) then Free else w.role[f])
    && SameDataKept(w, w')
  }

  /** Nothing but the order of the free list and what is on free pages may differ. */
  ghost predicate Restored(w: World, w': World) {
    w'.spaces == w.spaces && w'.role == w.role && SameData(w, w')
  }

  /** A new space `r` was made from free pages; everything in use is as it was. */
  ghost predicate Added(w: World, w': World, r: nat) {
    && SameOthers(w, w', r) && r !in w.spaces && r in w'.spaces && w'.role.Keys == w.role.Keys
    && (forall f :: f in w.role && !w.role[f].Free? ==> w'.role[f] == w.role[f] && !Within(w.role[f], r))
    && (forall f :: f in w'.role && w'.role[f] != w.role[f] ==> Within(w'.role[f], r))
    && SameData(w, w')
  }

  lemma {:induction false} EmptyAfterPrune(w: WfWorld, r: nat)
    requires r in w.spaces && ClearedBelow(w.spaces[r], 2, 0, 512)
    ensures w.spaces[r].mid == map[]
    ensures forall f :: f in w.role && Within(w.role[f], r) ==> f == r
  {
    SpaceIn(w, r);
    forall i | i in w.spaces[r].mid ensures false {
      MidIn(w.mem, w.role, w.spaces[r], i);
    }
    NothingBelow(w.mem, w.role, w.spaces[r]);
    UnfoldWorld(w);
    assert forall f :: f in w.role ==> RoleOk(w, f);
  }

  /** With every page unmapped and every table given back, releasing the root leaves nothing. */
  lemma {:induction false} GoneAtLast(u: WfWorld, t: World, w: WfWorld, r: nat, n: nat)
    requires Did(u, t, Unmaps(r, 0, n)) && Did(t, w, Prunes(r)) && r in u.spaces && r in w.spaces
    requires forall v :: v in u.spaces[r].leaf ==> v < n
    requires ClearedBelow(w.spaces[r], 2, 0, 512)
    ensures w.spaces[r].mid == map[] && WfAt(Released(Closed(w, r), r), DEPTH) && r in w.mem
    ensures Gone(u, Released(Closed(w, r), r), r)
  {
    EmptyAfterPrune(w, r);
    RootReleased(w, r);
    UnfoldUnmaps(u, t, r, 0, n);
    UnfoldPrunes(t, w, r);
    GoneRoles(u, t, w, r, n);
    SpaceIn(u, r);
    GoneBody(u, t, w, Released(Closed(w, r), r), r, n);
  }

  lemma {:induction false} RootReleased(w: WfWorld, r: nat)
    requires r in w.spaces && w.spaces[r].mid == map[]
    ensures r in w.mem && r in w.role && WfAt(Released(Closed(w, r), r), DEPTH)
    ensures var w' := Released(Closed(w, r), r);
            && w'.spaces == w.spaces - {r} && w'.role == w.role[r := Free]
            && forall f :: f in w.mem && f != r ==> f in w'.mem && w'.mem[f] == w.mem[f]
  {
    ClosedWf(w, r);
    ReleasedWf(Closed(w, r), r);
  }

  lemma {:induction false} GoneBody(u: World, t: World, w: World, w': World, r: nat, n: nat)
    requires Frame(u, t, r) && Frame(t, w, r) && w'.spaces == w.spaces - {r} && r in u.role && u.role[r] == Root(r)
    requires RolesUnmap(u.role, t.role, r, 0, n) && SameDataKept(u, t) && SameData(t, w)
    requires forall f :: f in u.role && f != r ==> w.role[f] == if Within(u.role[f], r) then Free else u.role[f]
    requires w'.role == w.role[r := Free] && forall f :: f in w.mem && f != r ==> f in w'.mem && w'.mem[f] == w.mem[f]
    ensures Gone(u, w', r)
  {
    assert SameOthers(u, w', r) && r !in w'.spaces by {
      OthersStay(u, t, w, w'.spaces, r);
    }
    RolesFreed(u.role, w.role, w'.role, r);
    GoneData(u, t, w, w', r, n);
  }

  lemma {:induction false} RolesFreed(before: map<nat, Role>, mid: map<nat, Role>, after: map<nat, Role>, r: nat)
    requires before.Keys == mid.Keys && r in before && before[r] == Root(r) && after == mid[r := Free]
    requires forall f :: f in before && f != r ==> mid[f] == if Within(before[f], r) then Free else before[f]
    ensures after.Keys == before.Keys
    ensures forall f :: f in before ==> after[f] == if Within(before[f], r) then Free else before[f]
  {
    assert after.Keys == before.Keys;
    assert Within(Root(r), r);
  }

  lemma {:induction false} OthersStay(u: World, t: World, w: World, spaces: map<nat, Space>, r: nat)
    requires SameOthers(u, t, r) && SameOthers(t, w, r) && spaces == w.spaces - {r}
    ensures forall q :: q in u.spaces && q != r ==> q in spaces && spaces[q] == u.spaces[q]
    ensures forall q :: q in spaces ==> q in u.spaces && q != r
  {
  }

  lemma {:induction false} GoneData(u: World, t: World, w: World, w': World, r: nat, n: nat)
    requires u.role.Keys == t.role.Keys == w'.role.Keys && r in u.role && u.role[r] == Root(r)
    requires RolesUnmap(u.role, t.role, r, 0, n) && SameDataKept(u, t) && SameData(t, w)
    requires forall f :: f in u.role && Within(u.role[f], r) ==> w'.role[f].Free?
    requires forall f :: f in w.mem && f != r ==> f in w'.mem && w'.mem[f] == w.mem[f]
    ensures SameDataKept(u, w')
  {
    forall f | f in u.role && f in u.mem && (u.role[f].Held? || u.role[f].User?) && w'.role[f] == u.role[f]
      ensures f in w'.mem && w'.mem[f] == u.mem[f]
    {
      assert t.role[f] == RoleOnceUnmapped(u.role[f], r, 0, n);
    }
  }

  lemma {:induction false} GoneRoles(u: WfWorld, t: World, w: World, r: nat, n: nat)
    requires r in u.spaces && u.role.Keys == t.role.Keys == w.role.Keys && RolesUnmap(u.role, t.role, r, 0, n)
             && RolesPrune(t.role, w.role, r)
    requires forall v :: v in u.spaces[r].leaf ==> v < n
    requires forall f :: f in w.role && Within(w.role[f], r) ==> f == r
    ensures forall f :: f in u.role && f != r ==> w.role[f] == if Within(u.role[f], r) then Free else u.role[f]
  {
    forall f | f in u.role && f != r ensures w.role[f] == if Within(u.role[f], r) then Free else u.role[f] {
      if u.role[f].User? && u.role[f].r == r {
        UserIn(u, f);
      }
      assert t.role[f] == RoleOnceUnmapped(u.role[f], r, 0, n);
    }
  }

  lemma {:induction false} NoLeafLeft(u: World, t: World, r: nat, n: nat)
    requires Did(u, t, Unmaps(r, 0, n)) && r in u.spaces && r in t.spaces && forall v :: v in u.spaces[r].leaf ==> v < n
    ensures t.spaces[r].leaf == map[]
  {
    UnfoldUnmaps(u, t, r, 0, n);
  }

  /** uvmfree: gives back every user page below `sz` and every table. Pages mapped from `sz`
      on would make freewalk panic, so there must be none. */
  method Uvmfree(m: Physical, r: nat, sz: nat)
    requires m.Ready() && r in m.w.spaces && sz <= MAXSZ && forall v :: v in m.w.spaces[r].leaf ==> v < Up(sz)
    modifies m
    ensures m.Ready() && Gone(old(m.w), m.w, r)
  {
    ghost var u := m.w;
    if sz > 0 {
      m.Uvmunmap(r, 0, Up(sz), true);
    } else {
      UnmapsNothing(m.w, r, 0, 0);
    }
    NoLeafLeft(u, m.w, r, Up(sz));
    ghost var t := m.w;
    SpaceIn(t, r);
    Freewalk(m, r, r, 2, 0);
    GoneAtLast(u, t, m.w, r, Up(sz));
    m.w := Released(Closed(m.w, r), r);
  }

  // ---------------------------------------------------------------- process page tables

  /** Working on a space that was just added never touches anything older. */
  lemma {:induction false} AddedThen(u: World, t: World, w: World, r: nat, c: Change)
    requires Added(u, t, r) && Did(t, w, c) && c.r == r && (c.Maps? ==> c.v >= TRAPFRAME)
    ensures Added(u, w, r)
  {
    match c
    case Grew(_) => UnfoldGrew(t, w, r);
    case Maps(_, v, k, f, perm) => UnfoldMaps(t, w, r, v, k, f, perm);
    case Unmaps(_, v, n) => UnfoldUnmaps(t, w, r, v, n);
    case Fills(_, want) => UnfoldFills(t, w, r, want);
    case Prunes(_) => UnfoldPrunes(t, w, r);
  }

  /** A space that was added and is gone again has left no trace. */
  lemma {:induction false} AddedThenGone(u: World, t: World, w: World, r: nat)
    requires Added(u, t, r) && Gone(t, w, r)
    ensures Restored(u, w)
  {
    assert w.role.Keys == u.role.Keys;
    forall f | f in u.role ensures w.role[f] == u.role[f] {
      assert f in t.role;
    }
  }

  lemma {:induction false} TopThenGone(u: WfWorld, t: World, w: World, r: nat, v: nat)
    requires Did(u, t, Unmaps(r, v, 1)) && v >= TRAPFRAME && Gone(t, w, r)
    ensures Gone(u, w, r)
  {
    UnfoldUnmaps(u, t, r, v, 1);
    forall f | f in u.role ensures t.role[f] == u.role[f] {
      if u.role[f].User? {
        UserIn(u, f);
      }
    }
  }

  lemma {:induction false} AddedRoot(u: World, t: World, r: nat)
    requires r in u.role && u.role[r].Free? && r !in u.spaces && t.role == u.role[r := Held]
    requires forall f :: f in u.role ==> !Within(u.role[f], r)
    requires t.mem == u.mem[r := Zeros()] && t.spaces == u.spaces
    ensures Added(u, Opened(t, r), r) && Opened(t, r).spaces[r].leaf == map[]
  {
  }

  lemma {:induction false} NotYetASpace(w: WfWorld, r: nat)
    requires r in w.role && w.role[r].Free?
    ensures r !in w.spaces && forall f :: f in w.role ==> !Within(w.role[f], r)
  {
    UnfoldWorld(w);
    assert forall f :: f in w.role ==> RoleOk(w, f);
  }

  /** A page table with no user memory: only the two topmost pages are mapped. */
  ghost predicate OnlyTop(sp: Space, tramp: nat, frame: nat) {
    && (forall v :: v in sp.leaf <==> v == TRAMPOLINE || v == TRAPFRAME)
    && sp.leaf[TRAMPOLINE] == LeafPte(tramp, PTE_R + PTE_X) && sp.leaf[TRAPFRAME] == LeafPte(frame, PTE_R + PTE_W)
  }

  ghost predicate NoTables(sp: Space) { sp.low.Keys == {} && sp.mid.Keys == {} }

  /** The space has the tables for the topmost pages and no others. */
  ghost predicate TopTables(sp: Space) { sp.low.Keys == Lows(TopPages()) && sp.mid.Keys == Mids(TopPages()) }

  /** What it takes to map the second of two pages, or not to be able to. */
  lemma {:induction false} SecondTop(a: World, b: World, r: nat)
    requires r in a.spaces && r in b.spaces && NoTables(a.spaces[r]) && Spent(a, b, r, {TRAMPOLINE}, 0)
    ensures |b.free| < Missing(b.spaces[r].low.Keys, b.spaces[r].mid.Keys, {TRAPFRAME}) ==>
              |a.free| < Missing({}, {}, TopPages())
  {
    if |b.free| < Missing(b.spaces[r].low.Keys, b.spaces[r].mid.Keys, {TRAPFRAME}) {
      TablesRanOut(a, b, r, {TRAMPOLINE}, TRAPFRAME, 0, TopPages());
    }
  }

  lemma {:induction false} FirstTop(a: World, r: nat)
    requires r in a.spaces && NoTables(a.spaces[r])
    ensures Missing(a.spaces[r].low.Keys, a.spaces[r].mid.Keys, {TRAMPOLINE}) <= Missing({}, {}, TopPages())
  {
    MissingMore({}, {}, {TRAMPOLINE}, TopPages());
  }

  lemma {:induction false} BothTop(a: World, b: World, w: World, r: nat)
    requires r in a.spaces && NoTables(a.spaces[r]) && Spent(a, b, r, {TRAMPOLINE}, 0) && Spent(b, w, r, {TRAPFRAME}, 0)
    ensures |a.free| == |w.free| + Missing({}, {}, TopPages()) && r in w.spaces && TopTables(w.spaces[r])
  {
    SpentTwice(a, b, w, r, {TRAMPOLINE}, {TRAPFRAME}, 0, 0);
    assert {TRAMPOLINE} + {TRAPFRAME} == TopPages();
    SpentIs(a, w, r, TopPages(), 0);
  }

  /** uvmcreate. */
  method Uvmcreate(m: Physical) returns (r: nat)
    requires m.Ready()
    modifies m
    ensures m.Ready()
    ensures r == 0 ==> m.w == old(m.w)
    ensures r != 0 ==> Added(old(m.w), m.w, r) && m.w.spaces[r].leaf == map[]
    ensures r != 0 <==> |old(m.w).free| >= 1
    ensures r != 0 ==> |old(m.w).free| == |m.w.free| + 1 && NoTables(m.w.spaces[r])
  {
    ghost var u := m.w;
    r := m.KallocZeroed();
    if r != 0 {
      NotYetASpace(u, r);
      OpenedWf(m.w, r);
      AddedRoot(u, m.w, r);
      m.w := Opened(m.w, r);
    }
  }

  /** proc_pagetable: a page table with the trampoline and the trapframe, or nothing. */
  method ProcPagetable(m: Physical, tramp: nat, frame: nat) returns (r: nat)
    requires m.Ready() && tramp !in m.w.role && frame in m.w.role && m.w.role[frame].Held?
    modifies m
    ensures m.Ready()
    ensures r == 0 ==> Restored(old(m.w), m.w)
    ensures r != 0 ==> Added(old(m.w), m.w, r) && OnlyTop(m.w.spaces[r], tramp, frame)
    ensures r != 0 <==> |old(m.w).free| >= 1 + Missing({}, {}, TopPages())
    ensures r != 0 ==> |old(m.w).free| == |m.w.free| + 1 + Missing({}, {}, TopPages()) && TopTables(m.w.spaces[r])
  {
    ghost var u := m.w;
    r := Uvmcreate(m);
    if r == 0 {
      return;
    }
    ghost var a := m.w;
    FirstTop(a, r);
    var ok := MapTop(m, r, TRAMPOLINE, tramp, PTE_R + PTE_X, u);
    if !ok {
      ghost var t := m.w;
      Uvmfree(m, r, 0);
      AddedThenGone(u, t, m.w, r);
      return 0;
    }
    ok := MapFrame(m, r, frame, u, a);
    if !ok {
      r := 0;
    }
  }

  /** The second mappages of proc_pagetable, and what its failure leads to. */
  method MapFrame(m: Physical, r: nat, frame: nat, ghost u: WfWorld, ghost a: WfWorld) returns (ok: bool)
    requires m.Ready() && Added(u, m.w, r) && frame in m.w.role && !m.w.role[frame].Free?
    requires (forall v :: v in m.w.spaces[r].leaf <==> v == TRAMPOLINE)
    requires r in a.spaces && NoTables(a.spaces[r]) && Spent(a, m.w, r, {TRAMPOLINE}, 0)
    modifies m
    ensures m.Ready()
    ensures !ok ==> Restored(u, m.w) && |a.free| < Missing({}, {}, TopPages())
    ensures ok ==> Added(u, m.w, r) && |a.free| == |m.w.free| + Missing({}, {}, TopPages()) && TopTables(m.w.spaces[r])
    ensures ok ==> m.w.spaces[r].leaf == old(m.w).spaces[r].leaf[TRAPFRAME := LeafPte(frame, PTE_R + PTE_W)]
  {
    ghost var b := m.w;
    SecondTop(a, b, r);
    ok := MapTop(m, r, TRAPFRAME, frame, PTE_R + PTE_W, u);
    if ok {
      BothTop(a, b, m.w, r);
    } else {
      ghost var t := m.w;
      m.Uvmunmap(r, TRAMPOLINE, 1, false);
      AddedThen(u, t, m.w, r, Unmaps(r, TRAMPOLINE, 1));
      LastLeafGone(t, m.w, r);
      t := m.w;
      Uvmfree(m, r, 0);
      AddedThenGone(u, t, m.w, r);
    }
  }

  lemma {:induction false} LastLeafGone(t: World, w: World, r: nat)
    requires Did(t, w, Unmaps(r, TRAMPOLINE, 1)) && r in t.spaces && forall v :: v in t.spaces[r].leaf <==>
               v == TRAMPOLINE
    ensures r in w.spaces && w.spaces[r].leaf == map[]
  {
    UnfoldUnmaps(t, w, r, TRAMPOLINE, 1);
  }

  /** mappages for one of the two topmost pages of a page table in the making. */
  method MapTop(m: Physical, r: nat, v: nat, f: nat, perm: nat, ghost u: World) returns (ok: bool)
    requires m.Ready() && Added(u, m.w, r) && TRAPFRAME <= v < PAGES && v !in m.w.spaces[r].leaf && perm < 1024
             && perm / 2 % 8 != 0
    requires f in m.w.role ==> !m.w.role[f].Free?
    modifies m
    ensures m.Ready() && Added(u, m.w, r)
    ensures m.w.spaces[r].leaf == if ok then old(m.w).spaces[r].leaf[v := LeafPte(f, perm)] else old(m.w).spaces[r].leaf
    ensures ok <==> |old(m.w).free| >= Missing(old(m.w).spaces[r].low.Keys, old(m.w).spaces[r].mid.Keys, {v})
    ensures ok ==> Spent(old(m.w), m.w, r, {v}, 0)
  {
    RangeOne(v);
    ghost var t := m.w;
    ghost var k;
    ok, k := m.Mappages(r, v, 1, f, perm);
    AddedThen(u, t, m.w, r, Maps(r, v, k, f, perm));
    UnfoldMaps(t, m.w, r, v, k, f, perm);
  }

  /** proc_freepagetable: everything the page table referred to is given back, except the
      trampoline, which is not allocated, and the trapframe, which is freed separately. */
  method ProcFreepagetable(m: Physical, r: nat, sz: nat)
    requires m.Ready() && r in m.w.spaces && sz <= MAXSZ
    requires forall v :: v in m.w.spaces[r].leaf ==> v < Up(sz) || v == TRAMPOLINE || v == TRAPFRAME
    modifies m
    ensures m.Ready() && Gone(old(m.w), m.w, r)
  {
    ghost var u := m.w;
    m.Uvmunmap(r, TRAMPOLINE, 1, false);
    ghost var t := m.w;
    UnfoldUnmaps(u, t, r, TRAMPOLINE, 1);
    m.Uvmunmap(r, TRAPFRAME, 1, false);
    ghost var s := m.w;
    UnfoldUnmaps(t, s, r, TRAPFRAME, 1);
    Uvmfree(m, r, sz);
    TopThenGone(t, s, m.w, r, TRAPFRAME);
    TopThenGone(u, t, m.w, r, TRAMPOLINE);
  }
}
