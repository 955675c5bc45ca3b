/** Sv39 page tables in physical memory (kernel/vm.c, kernel/riscv.h; section 4.4 of the
    RISC-V Privileged Architecture, version 1.12) and who owns each physical page.

    A `World` is all the memory the page allocator manages. Every managed page has exactly
    one `Role`, so the pages are partitioned by construction; `WfWorld` says that roles,
    the words in memory, the free list and the address spaces agree. Each address space is
    a three-level tree of 512-entry pages which represents the flat map `leaf` from virtual
    page number to page-table entry. */
module PageTable {

  const PGSIZE: nat := 4096
  const MAXVA: nat := 0x40_0000_0000     // 2^38
  const PAGES: nat := 0x400_0000         // MAXVA / PGSIZE
  const TRAMPOLINE: nat := PAGES - 1     // page numbers of the two topmost pages
  const TRAPFRAME: nat := PAGES - 2

  // ---------------------------------------------------------------- entries

  const PTE_V: nat := 1
  const PTE_R: nat := 2
  const PTE_W: nat := 4
  const PTE_X: nat := 8
  const PTE_U: nat := 16

  predicate IsValid(pte: nat) { pte % 2 == 1 }

  /** Any of R, W, X set: a leaf, not a pointer to a lower table. */
  predicate IsLeaf(pte: nat) { pte / 2 % 8 != 0 }

  /** PTE2PA, as a page number. */
  function Ppn(pte: nat): nat { pte / 1024 }

  function Flags(pte: nat): nat { pte % 1024 }

  /** PA2PTE(pa) | perm | PTE_V for the page `f`. */
  function MakePte(f: nat, perm: nat): nat
    requires perm < 1024
  {
    f * 1024 + if perm % 2 == 1 then perm else perm + 1
  }

  /** The entry of an interior table: PA2PTE(f) | PTE_V. */
  function Pointer(f: nat): nat { f * 1024 + PTE_V }

  lemma EntryRoundTrip(f: nat, perm: nat)
    requires perm < 1024
    ensures IsValid(MakePte(f, perm)) && Ppn(MakePte(f, perm)) == f
    ensures Flags(MakePte(f, perm)) == if perm % 2 == 1 then perm else perm + 1
    ensures IsLeaf(MakePte(f, perm)) <==> perm / 2 % 8 != 0
  {
    var g := if perm % 2 == 1 then perm else perm + 1;
    Digits(f, 1024, g);
    Digits(f * 512, 2, g);
    Digits(f * 64, 8, g / 2);
    assert g / 2 == perm / 2;
  }

  lemma {:induction false} Digits(a: nat, b: nat, c: nat)
    requires b in {2, 8, 1024}
    ensures (a * b + c) / b == a + c / b && (a * b + c) % b == c % b
  {
  }

  lemma PointerRoundTrip(f: nat)
    ensures IsValid(Pointer(f)) && !IsLeaf(Pointer(f)) && Ppn(Pointer(f)) == f
  {
  }

  // ---------------------------------------------------------------- indices

  /** PX(level, va): nine bits of the virtual address. */
  function Px(level: nat, va: nat): nat
    requires level <= 2
  {
    va / (if level == 0 then 0x1000 else if level == 1 then 0x20_0000 else 0x4000_0000) % 512
  }

  /** The three indices are the base-512 digits of the virtual page number: distinct pages
      below MAXVA have distinct index triples. */
  lemma IndexSplit(va: nat)
    requires va < MAXVA
    ensures va / PGSIZE == Px(2, va) * 0x4_0000 + Px(1, va) * 512 + Px(0, va)
    ensures Px(0, va) == va / PGSIZE % 512
    ensures Px(1, va) == va / PGSIZE / 512 % 512
    ensures Px(2, va) == va / PGSIZE / 512 / 512
    ensures Px(2, va) < 256
  {
    var v := va / 4096;
    assert va / 0x20_0000 == v / 512;
    assert va / 0x4000_0000 == v / 512 / 512;
  }

  // ---------------------------------------------------------------- spaces

  /** An address space: `root` is the top table; `mid[i]` the table behind entry i of the
      root; `low[p]` the table for virtual pages 512p..512p+511; `leaf[v]` the entry of
      virtual page v and `page[v]` the physical page it names. */
  datatype Space = Space(root: nat, mid: map<nat, nat>, low: map<nat, nat>, leaf: map<nat, nat>, page: map<nat, nat>)

  /** What a page of physical memory is used for. `Held` pages belong to whoever asked the
      allocator for them and are not (yet) part of any address space. */
  datatype Role =
    | Free
    | Held
    | Root(r: nat)
    | Mid(r: nat, i: nat)
    | Low(r: nat, p: nat)
    | User(r: nat, v: nat)

  predicate Within(x: Role, r: nat) {
    !x.Free? && !x.Held? && x.r == r
  }

  type Memory = map<nat, seq<nat>>

  /** Memory after storing word `x` at index `i` of page `f`. */
  function Poke(mem: Memory, f: nat, i: nat, x: nat): Memory
    requires f in mem && i < |mem[f]|
  {
    var page: seq<nat> := mem[f][i := x];
    mem[f := page]
  }

  function Entry(m: map<nat, nat>, k: nat, leaf: bool): nat {
    if k !in m then 0 else if leaf then m[k] else Pointer(m[k])
  }

  /** The number covered by slot `j` of table `base`. */
  function Key(base: nat, j: nat): nat { base * 512 + j }

  /** The page holds the 512 entries of `m` from 512 * base on. */
  ghost predicate TableIs(page: seq<nat>, base: nat, m: map<nat, nat>, leaf: bool) {
    |page| == 512 && forall j :: 0 <= j < 512 ==> page[j] == Entry(m, Key(base, j), leaf)
  }

  function Zeros(): seq<nat> { seq(512, _ => 0) }

  lemma TableZero(base: nat, m: map<nat, nat>, leaf: bool)
    requires forall k :: k in m ==> k / 512 != base
    ensures TableIs(Zeros(), base, m, leaf)
  {
    forall j | 0 <= j < 512 ensures Key(base, j) !in m {
      assert Key(base, j) / 512 == base;
    }
  }

  lemma TableSet(page: seq<nat>, base: nat, m: map<nat, nat>, k: nat, x: nat, leaf: bool)
    requires TableIs(page, base, m, leaf) && k / 512 == base
    ensures TableIs(page[k % 512 := if leaf then x else Pointer(x)], base, m[k := x], leaf)
  {
  }

  lemma TableClear(page: seq<nat>, base: nat, m: map<nat, nat>, k: nat, leaf: bool)
    requires TableIs(page, base, m, leaf) && k / 512 == base
    ensures TableIs(page[k % 512 := 0], base, m - {k}, leaf)
  {
  }

  lemma TableOther(page: seq<nat>, base: nat, m: map<nat, nat>, k: nat, x: nat, leaf: bool)
    requires TableIs(page, base, m, leaf) && k / 512 != base
    ensures TableIs(page, base, m[k := x], leaf) && TableIs(page, base, m - {k}, leaf)
  {
    forall j | 0 <= j < 512 ensures Key(base, j) != k {
      assert Key(base, j) / 512 == base;
    }
  }

  /** A table whose slots are all empty is zero. */
  lemma TableEmpty(page: seq<nat>, base: nat, m: map<nat, nat>, leaf: bool)
    requires TableIs(page, base, m, leaf) && forall k :: k in m ==> k / 512 != base
    ensures page == Zeros()
  {
    TableZero(base, m, leaf);
    assert forall j :: 0 <= j < 512 ==> page[j] == Zeros()[j];
  }

  ghost predicate MidOk(mem: Memory, role: map<nat, Role>, sp: Space, i: nat)
    requires i in sp.mid
  {
    var f := sp.mid[i];
    i < 512 && f in role && role[f] == Mid(sp.root, i) && f in mem && TableIs(mem[f], i, sp.low, false)
  }

  ghost predicate LowOk(mem: Memory, role: map<nat, Role>, sp: Space, p: nat)
    requires p in sp.low
  {
    var f := sp.low[p];
    p / 512 in sp.mid && f in role && role[f] == Low(sp.root, p) && f in mem && TableIs(mem[f], p, sp.leaf, true)
  }

  ghost predicate LeafOk(role: map<nat, Role>, sp: Space, v: nat)
    requires v in sp.leaf
  {
    var e := sp.leaf[v];
    && v < PAGES && v / 512 in sp.low && IsValid(e) && IsLeaf(e) && v in sp.page && sp.page[v] == Ppn(e)
    && (v < TRAPFRAME ==> sp.page[v] in role && role[sp.page[v]] == User(sp.root, v))
  }

  /** Memory represents the space, and its pages have the roles that say so. */
  ghost predicate SpaceBody(mem: Memory, role: map<nat, Role>, sp: Space) {
    && sp.root in role && role[sp.root] == Root(sp.root) && sp.root in mem && TableIs(mem[sp.root], 0, sp.mid, false)
    && (forall i :: i in sp.mid ==> MidOk(mem, role, sp, i))
    && (forall p :: p in sp.low ==> LowOk(mem, role, sp, p))
    && (forall v :: v in sp.leaf ==> LeafOk(role, sp, v))
  }

  /** An arbitrary depth at which larger predicates are kept folded: their definitions are
      unfolded only by calling the lemma that says so, which keeps proofs short. */
  const DEPTH: nat

  ghost predicate SpaceAt(mem: Memory, role: map<nat, Role>, sp: Space, depth: nat) {
    if depth == 0 then SpaceBody(mem, role, sp) else SpaceAt(mem, role, sp, depth - 1)
  }

  ghost predicate SpaceOk(mem: Memory, role: map<nat, Role>, sp: Space) {
    SpaceAt(mem, role, sp, DEPTH)
  }

  lemma {:induction false} UnfoldSpaceAt(mem: Memory, role: map<nat, Role>, sp: Space, depth: nat)
    ensures SpaceAt(mem, role, sp, depth) <==> SpaceBody(mem, role, sp)
  {
    if depth > 0 {
      UnfoldSpaceAt(mem, role, sp, depth - 1);
    }
  }

  lemma UnfoldSpace(mem: Memory, role: map<nat, Role>, sp: Space)
    ensures SpaceOk(mem, role, sp) <==> SpaceBody(mem, role, sp)
  {
    UnfoldSpaceAt(mem, role, sp, DEPTH);
  }

  /** Page `f` keeps its role and its words. */
  predicate SamePage(mem: Memory, role: map<nat, Role>, mem': Memory, role': map<nat, Role>, f: nat) {
    f in role && f in mem && f in role' && f in mem' && role'[f] == role[f] && mem'[f] == mem[f]
  }

  /** Every page within address space `r` keeps its role, and its tables their words. */
  ghost predicate Undisturbed(mem: Memory, role: map<nat, Role>, mem': Memory, role': map<nat, Role>, r: nat) {
    && (forall f :: f in role && f in mem && Within(role[f], r) && !role[f].User? ==>
        SamePage(mem, role, mem', role', f))
    && (forall f :: f in role && role[f].User? && role[f].r == r ==> f in role' && role'[f] == role[f])
  }

  lemma {:induction false} MidFrame(
    mem: Memory, role: map<nat, Role>, mem': Memory, role': map<nat, Role>, sp: Space, i: nat)
    requires i in sp.mid && MidOk(mem, role, sp, i) && Undisturbed(mem, role, mem', role', sp.root)
    ensures MidOk(mem', role', sp, i)
  {
    assert SamePage(mem, role, mem', role', sp.mid[i]);
  }

  lemma {:induction false} LowFrame(
    mem: Memory, role: map<nat, Role>, mem': Memory, role': map<nat, Role>, sp: Space, p: nat)
    requires p in sp.low && LowOk(mem, role, sp, p) && Undisturbed(mem, role, mem', role', sp.root)
    ensures LowOk(mem', role', sp, p)
  {
    assert SamePage(mem, role, mem', role', sp.low[p]);
  }

  /** A space is unaffected by what happens to pages that are not its own. */
  lemma {:induction false} SpaceFrame(mem: Memory, role: map<nat, Role>, mem': Memory, role': map<nat, Role>, sp: Space)
    requires SpaceOk(mem, role, sp) && Undisturbed(mem, role, mem', role', sp.root)
    ensures SpaceOk(mem', role', sp)
  {
    UnfoldSpace(mem, role, sp);
    UnfoldSpace(mem', role', sp);
    assert SamePage(mem, role, mem', role', sp.root);
    forall i | i in sp.mid ensures MidOk(mem', role', sp, i) {
      MidFrame(mem, role, mem', role', sp, i);
    }
    forall p | p in sp.low ensures LowOk(mem', role', sp, p) {
      LowFrame(mem, role, mem', role', sp, p);
    }
    forall v | v in sp.leaf ensures LeafOk(role', sp, v) {
      assert LeafOk(role, sp, v);
    }
  }

  // ---------------------------------------------------------------- changing one space

  lemma {:induction false} SpaceAddMidBody(mem: Memory, role: map<nat, Role>, sp: Space, i: nat, f: nat)
    requires SpaceBody(mem, role, sp) && i < 512 && i !in sp.mid
    requires f in role && role[f].Held? && f in mem && mem[f] == Zeros()
    ensures sp.root in mem && |mem[sp.root]| == 512
    ensures SpaceBody(Poke(mem, sp.root, i, Pointer(f)), role[f := Mid(sp.root, i)], sp.(mid := sp.mid[i := f]))
  {
    var mem' := Poke(mem, sp.root, i, Pointer(f));
    var role', sp' := role[f := Mid(sp.root, i)], sp.(mid := sp.mid[i := f]);
    TableSet(mem[sp.root], 0, sp.mid, i, f, false);
    assert forall p :: p in sp.low ==> LowOk(mem, role, sp, p);
    TableZero(i, sp.low, false);
    forall k | k in sp'.mid ensures MidOk(mem', role', sp', k) {
      assert k != i ==> MidOk(mem, role, sp, k);
    }
    forall p | p in sp'.low ensures LowOk(mem', role', sp', p) {
      assert LowOk(mem, role, sp, p);
    }
    forall v | v in sp'.leaf ensures LeafOk(role', sp', v) {
      assert LeafOk(role, sp, v);
    }
  }

  /** A zeroed page becomes the second-level table behind entry `i` of the root. */
  lemma {:induction false} SpaceAddMid(mem: Memory, role: map<nat, Role>, sp: Space, i: nat, f: nat)
    requires SpaceOk(mem, role, sp) && i < 512 && i !in sp.mid
    requires f in role && role[f].Held? && f in mem && mem[f] == Zeros()
    ensures sp.root in mem && |mem[sp.root]| == 512
    ensures SpaceOk(Poke(mem, sp.root, i, Pointer(f)), role[f := Mid(sp.root, i)], sp.(mid := sp.mid[i := f]))
  {
    UnfoldSpace(mem, role, sp);
    SpaceAddMidBody(mem, role, sp, i, f);
    UnfoldSpace(Poke(mem, sp.root, i, Pointer(f)), role[f := Mid(sp.root, i)], sp.(mid := sp.mid[i := f]));
  }

  lemma {:induction false} AddLowMids(mem: Memory, role: map<nat, Role>, sp: Space, p: nat, f: nat)
    requires SpaceBody(mem, role, sp) && p !in sp.low && p / 512 in sp.mid && MidOk(mem, role, sp, p / 512)
    requires f in role && role[f].Held?
    ensures var mem' := Poke(mem, sp.mid[p / 512], p % 512, Pointer(f));
            var role', sp' := role[f := Low(sp.root, p)], sp.(low := sp.low[p := f]);
            forall k :: k in sp'.mid ==> MidOk(mem', role', sp', k)
  {
    var g := sp.mid[p / 512];
    var mem' := Poke(mem, g, p % 512, Pointer(f));
    var role', sp' := role[f := Low(sp.root, p)], sp.(low := sp.low[p := f]);
    TableSet(mem[g], p / 512, sp.low, p, f, false);
    forall k | k in sp'.mid ensures MidOk(mem', role', sp', k) {
      assert MidOk(mem, role, sp, k);
      if k != p / 512 {
        TableOther(mem[sp.mid[k]], k, sp.low, p, f, false);
      }
    }
  }

  lemma {:induction false} AddLowLows(mem: Memory, role: map<nat, Role>, sp: Space, p: nat, f: nat)
    requires SpaceBody(mem, role, sp) && p !in sp.low && p / 512 in sp.mid && MidOk(mem, role, sp, p / 512)
    requires f in role && role[f].Held? && f in mem && mem[f] == Zeros()
    ensures var mem' := Poke(mem, sp.mid[p / 512], p % 512, Pointer(f));
            var role', sp' := role[f := Low(sp.root, p)], sp.(low := sp.low[p := f]);
            forall q :: q in sp'.low ==> LowOk(mem', role', sp', q)
  {
    var mem' := Poke(mem, sp.mid[p / 512], p % 512, Pointer(f));
    var role', sp' := role[f := Low(sp.root, p)], sp.(low := sp.low[p := f]);
    assert forall v :: v in sp.leaf ==> LeafOk(role, sp, v);
    TableZero(p, sp.leaf, true);
    forall q | q in sp'.low ensures LowOk(mem', role', sp', q) {
      assert q != p ==> LowOk(mem, role, sp, q);
    }
  }

  lemma {:induction false} SpaceAddLowBody(mem: Memory, role: map<nat, Role>, sp: Space, p: nat, f: nat)
    requires SpaceBody(mem, role, sp) && p !in sp.low && p / 512 in sp.mid
    requires f in role && role[f].Held? && f in mem && mem[f] == Zeros()
    ensures MidOk(mem, role, sp, p / 512)
    ensures SpaceBody(Poke(mem, sp.mid[p / 512], p % 512, Pointer(f)), role[f := Low(sp.root, p)],
                      sp.(low := sp.low[p := f]))
  {
    assert MidOk(mem, role, sp, p / 512);
    AddLowMids(mem, role, sp, p, f);
    AddLowLows(mem, role, sp, p, f);
    var role', sp' := role[f := Low(sp.root, p)], sp.(low := sp.low[p := f]);
    forall v | v in sp'.leaf ensures LeafOk(role', sp', v) {
      assert LeafOk(role, sp, v);
    }
  }

  /** A zeroed page becomes the table for virtual pages 512p..512p+511. */
  lemma {:induction false} SpaceAddLow(mem: Memory, role: map<nat, Role>, sp: Space, p: nat, f: nat)
    requires SpaceOk(mem, role, sp) && p !in sp.low && p / 512 in sp.mid
    requires f in role && role[f].Held? && f in mem && mem[f] == Zeros()
    ensures MidOk(mem, role, sp, p / 512)
    ensures SpaceOk(Poke(mem, sp.mid[p / 512], p % 512, Pointer(f)), role[f := Low(sp.root, p)],
                    sp.(low := sp.low[p := f]))
  {
    UnfoldSpace(mem, role, sp);
    SpaceAddLowBody(mem, role, sp, p, f);
    UnfoldSpace(Poke(mem, sp.mid[p / 512], p % 512, Pointer(f)), role[f := Low(sp.root, p)],
                sp.(low := sp.low[p := f]));
  }

  lemma {:induction false} MapLows(mem: Memory, role: map<nat, Role>, role': map<nat, Role>, sp: Space, v: nat, e: nat)
    requires SpaceBody(mem, role, sp) && v / 512 in sp.low && LowOk(mem, role, sp, v / 512) && IsValid(e) && IsLeaf(e)
    requires v < TRAPFRAME ==> Ppn(e) in role && role[Ppn(e)].Held?
    requires role' == if v < TRAPFRAME then role[Ppn(e) := User(sp.root, v)] else role
    ensures var mem', sp' := Poke(mem, sp.low[v / 512], v % 512, e),
            sp.(leaf := sp.leaf[v := e], page := sp.page[v := Ppn(e)]);
            forall q :: q in sp'.low ==> LowOk(mem', role', sp', q)
  {
    var g := sp.low[v / 512];
    var mem', sp' := Poke(mem, g, v % 512, e), sp.(leaf := sp.leaf[v := e], page := sp.page[v := Ppn(e)]);
    TableSet(mem[g], v / 512, sp.leaf, v, e, true);
    forall q | q in sp'.low ensures LowOk(mem', role', sp', q) {
      assert LowOk(mem, role, sp, q);
      if q != v / 512 {
        TableOther(mem[sp.low[q]], q, sp.leaf, v, e, true);
      }
    }
  }

  lemma {:induction false} SpaceMapBody(
    mem: Memory, role: map<nat, Role>, role': map<nat, Role>, sp: Space, v: nat, e: nat)
    requires SpaceBody(mem, role, sp) && v !in sp.leaf && v / 512 in sp.low && v < PAGES && IsValid(e) && IsLeaf(e)
    requires v < TRAPFRAME ==> Ppn(e) in role && role[Ppn(e)].Held?
    requires role' == if v < TRAPFRAME then role[Ppn(e) := User(sp.root, v)] else role
    ensures LowOk(mem, role, sp, v / 512)
    ensures SpaceBody(Poke(mem, sp.low[v / 512], v % 512, e), role',
                      sp.(leaf := sp.leaf[v := e], page := sp.page[v := Ppn(e)]))
  {
    assert LowOk(mem, role, sp, v / 512);
    var g := sp.low[v / 512];
    var mem', sp' := Poke(mem, g, v % 512, e), sp.(leaf := sp.leaf[v := e], page := sp.page[v := Ppn(e)]);
    forall k | k in sp'.mid ensures MidOk(mem', role', sp', k) {
      assert MidOk(mem, role, sp, k);
    }
    MapLows(mem, role, role', sp, v, e);
    LeavesOnceMapped(role, role', sp, sp', v, e);
  }

  lemma {:induction false} LeavesOnceMapped(
    role: map<nat, Role>, role': map<nat, Role>, sp: Space, sp': Space, v: nat, e: nat)
    requires forall u :: u in sp.leaf ==> LeafOk(role, sp, u)
    requires v !in sp.leaf && v / 512 in sp.low && v < PAGES && IsValid(e) && IsLeaf(e)
    requires v < TRAPFRAME ==> Ppn(e) in role && role[Ppn(e)].Held?
    requires role' == if v < TRAPFRAME then role[Ppn(e) := User(sp.root, v)] else role
    requires sp' == sp.(leaf := sp.leaf[v := e], page := sp.page[v := Ppn(e)])
    ensures forall u :: u in sp'.leaf ==> LeafOk(role', sp', u)
  {
    forall u | u in sp'.leaf ensures LeafOk(role', sp', u) {
      assert u != v ==> LeafOk(role, sp, u);
    }
  }

  /** A leaf entry is stored for virtual page `v`; a user page takes over a held page. */
  lemma {:induction false} SpaceMap(mem: Memory, role: map<nat, Role>, role': map<nat, Role>, sp: Space, v: nat, e: nat)
    requires SpaceOk(mem, role, sp) && v !in sp.leaf && v / 512 in sp.low && v < PAGES && IsValid(e) && IsLeaf(e)
    requires v < TRAPFRAME ==> Ppn(e) in role && role[Ppn(e)].Held?
    requires role' == if v < TRAPFRAME then role[Ppn(e) := User(sp.root, v)] else role
    ensures LowOk(mem, role, sp, v / 512)
    ensures SpaceOk(Poke(mem, sp.low[v / 512], v % 512, e), role',
                    sp.(leaf := sp.leaf[v := e], page := sp.page[v := Ppn(e)]))
  {
    UnfoldSpace(mem, role, sp);
    SpaceMapBody(mem, role, role', sp, v, e);
    UnfoldSpace(Poke(mem, sp.low[v / 512], v % 512, e), role',
                sp.(leaf := sp.leaf[v := e], page := sp.page[v := Ppn(e)]));
  }

  lemma {:induction false} SpaceUnmapBody(mem: Memory, role: map<nat, Role>, role': map<nat, Role>, sp: Space, v: nat)
    requires SpaceBody(mem, role, sp) && v in sp.leaf && v in sp.page
    requires role' == if v < TRAPFRAME then role[sp.page[v] := Held] else role
    ensures LeafOk(role, sp, v) && LowOk(mem, role, sp, v / 512)
    ensures SpaceBody(Poke(mem, sp.low[v / 512], v % 512, 0), role', sp.(leaf := sp.leaf - {v}))
  {
    assert LeafOk(role, sp, v) && LowOk(mem, role, sp, v / 512);
    var g := sp.low[v / 512];
    var mem', sp' := Poke(mem, g, v % 512, 0), sp.(leaf := sp.leaf - {v});
    TableClear(mem[g], v / 512, sp.leaf, v, true);
    forall k | k in sp'.mid ensures MidOk(mem', role', sp', k) {
      assert MidOk(mem, role, sp, k);
    }
    forall q | q in sp'.low ensures LowOk(mem', role', sp', q) {
      assert LowOk(mem, role, sp, q);
      if q != v / 512 {
        TableOther(mem[sp.low[q]], q, sp.leaf, v, 0, true);
      }
    }
    forall u | u in sp'.leaf ensures LeafOk(role', sp', u) {
      assert LeafOk(role, sp, u);
    }
  }

  /** The entry of virtual page `v` is cleared; a user page goes back to being held. */
  lemma {:induction false} SpaceUnmap(mem: Memory, role: map<nat, Role>, role': map<nat, Role>, sp: Space, v: nat)
    requires SpaceOk(mem, role, sp) && v in sp.leaf && v in sp.page
    requires role' == if v < TRAPFRAME then role[sp.page[v] := Held] else role
    ensures LeafOk(role, sp, v) && LowOk(mem, role, sp, v / 512)
    ensures SpaceOk(Poke(mem, sp.low[v / 512], v % 512, 0), role', sp.(leaf := sp.leaf - {v}))
  {
    UnfoldSpace(mem, role, sp);
    SpaceUnmapBody(mem, role, role', sp, v);
    UnfoldSpace(Poke(mem, sp.low[v / 512], v % 512, 0), role', sp.(leaf := sp.leaf - {v}));
  }

  lemma {:induction false} DropLowMids(mem: Memory, role: map<nat, Role>, sp: Space, p: nat)
    requires SpaceBody(mem, role, sp) && p in sp.low && LowOk(mem, role, sp, p) && MidOk(mem, role, sp, p / 512)
    ensures var mem', role', sp' := Poke(mem, sp.mid[p / 512], p % 512, 0), role[sp.low[p] := Held],
            sp.(low := sp.low - {p});
            forall k :: k in sp'.mid ==> MidOk(mem', role', sp', k)
  {
    var g := sp.mid[p / 512];
    var mem', role', sp' := Poke(mem, g, p % 512, 0), role[sp.low[p] := Held], sp.(low := sp.low - {p});
    TableClear(mem[g], p / 512, sp.low, p, false);
    forall k | k in sp'.mid ensures MidOk(mem', role', sp', k) {
      assert MidOk(mem, role, sp, k);
      if k != p / 512 {
        TableOther(mem[sp.mid[k]], k, sp.low, p, 0, false);
      }
    }
  }

  lemma {:induction false} DropLowLows(mem: Memory, role: map<nat, Role>, sp: Space, p: nat)
    requires SpaceBody(mem, role, sp) && p in sp.low && LowOk(mem, role, sp, p) && MidOk(mem, role, sp, p / 512)
    ensures var mem', role', sp' := Poke(mem, sp.mid[p / 512], p % 512, 0), role[sp.low[p] := Held],
            sp.(low := sp.low - {p});
            forall q :: q in sp'.low ==> LowOk(mem', role', sp', q)
  {
    var mem', role', sp' := Poke(mem, sp.mid[p / 512], p % 512, 0), role[sp.low[p] := Held], sp.(low := sp.low - {p});
    forall q | q in sp'.low ensures LowOk(mem', role', sp', q) {
      assert LowOk(mem, role, sp, q);
    }
  }

  lemma {:induction false} SpaceDropLowBody(mem: Memory, role: map<nat, Role>, sp: Space, p: nat)
    requires SpaceBody(mem, role, sp) && p in sp.low && forall v :: v in sp.leaf ==> v / 512 != p
    ensures LowOk(mem, role, sp, p) && MidOk(mem, role, sp, p / 512)
    ensures SpaceBody(Poke(mem, sp.mid[p / 512], p % 512, 0), role[sp.low[p] := Held], sp.(low := sp.low - {p}))
  {
    assert LowOk(mem, role, sp, p) && MidOk(mem, role, sp, p / 512);
    var mem', role', sp' := Poke(mem, sp.mid[p / 512], p % 512, 0), role[sp.low[p] := Held], sp.(low := sp.low - {p});
    DropLowMids(mem, role, sp, p);
    DropLowLows(mem, role, sp, p);
    forall v | v in sp'.leaf ensures LeafOk(role', sp', v) {
      assert LeafOk(role, sp, v);
    }
  }

  /** A lowest-level table with no entries left is unlinked. */
  lemma {:induction false} SpaceDropLow(mem: Memory, role: map<nat, Role>, sp: Space, p: nat)
    requires SpaceOk(mem, role, sp) && p in sp.low && forall v :: v in sp.leaf ==> v / 512 != p
    ensures LowOk(mem, role, sp, p) && MidOk(mem, role, sp, p / 512)
    ensures SpaceOk(Poke(mem, sp.mid[p / 512], p % 512, 0), role[sp.low[p] := Held], sp.(low := sp.low - {p}))
  {
    UnfoldSpace(mem, role, sp);
    SpaceDropLowBody(mem, role, sp, p);
    UnfoldSpace(Poke(mem, sp.mid[p / 512], p % 512, 0), role[sp.low[p] := Held], sp.(low := sp.low - {p}));
  }

  lemma {:induction false} SpaceDropMidBody(mem: Memory, role: map<nat, Role>, sp: Space, i: nat)
    requires SpaceBody(mem, role, sp) && i in sp.mid && forall p :: p in sp.low ==> p / 512 != i
    ensures MidOk(mem, role, sp, i) && sp.root in mem && |mem[sp.root]| == 512
    ensures SpaceBody(Poke(mem, sp.root, i, 0), role[sp.mid[i] := Held], sp.(mid := sp.mid - {i}))
  {
    assert MidOk(mem, role, sp, i);
    var mem', role', sp' := Poke(mem, sp.root, i, 0), role[sp.mid[i] := Held], sp.(mid := sp.mid - {i});
    TableClear(mem[sp.root], 0, sp.mid, i, false);
    forall k | k in sp'.mid ensures MidOk(mem', role', sp', k) {
      assert MidOk(mem, role, sp, k);
    }
    forall q | q in sp'.low ensures LowOk(mem', role', sp', q) {
      assert LowOk(mem, role, sp, q);
    }
    forall v | v in sp'.leaf ensures LeafOk(role', sp', v) {
      assert LeafOk(role, sp, v);
    }
  }

  /** A second-level table with no entries left is unlinked. */
  lemma {:induction false} SpaceDropMid(mem: Memory, role: map<nat, Role>, sp: Space, i: nat)
    requires SpaceOk(mem, role, sp) && i in sp.mid && forall p :: p in sp.low ==> p / 512 != i
    ensures MidOk(mem, role, sp, i) && sp.root in mem && |mem[sp.root]| == 512
    ensures SpaceOk(Poke(mem, sp.root, i, 0), role[sp.mid[i] := Held], sp.(mid := sp.mid - {i}))
  {
    UnfoldSpace(mem, role, sp);
    SpaceDropMidBody(mem, role, sp, i);
    UnfoldSpace(Poke(mem, sp.root, i, 0), role[sp.mid[i] := Held], sp.(mid := sp.mid - {i}));
  }

  // ---------------------------------------------------------------- all of memory

  /** Managed memory: page contents, head of the free list (0 when empty) and the list
      itself, the role of every page, and the address spaces by root page. */
  datatype World = World(mem: Memory, head: nat, free: seq<nat>, role: map<nat, Role>, spaces: map<nat, Space>)

  /** A page's role is borne out by the free list or by the space it names. */
  ghost predicate RoleOk(w: World, f: nat)
    requires f in w.role
  {
    match w.role[f]
    case Free => f in w.free
    case Held => true
    case Root(r) => r == f && r in w.spaces
    case Mid(r, i) => r in w.spaces && i in w.spaces[r].mid && w.spaces[r].mid[i] == f
    case Low(r, p) => r in w.spaces && p in w.spaces[r].low && w.spaces[r].low[p] == f
    case User(r, v) =>
      r in w.spaces && v < TRAPFRAME && v in w.spaces[r].leaf && v in w.spaces[r].page && w.spaces[r].page[v] == f
  }

  /** The first word of a free page is the address of the next one. */
  ghost predicate NextOk(mem: Memory, free: seq<nat>, i: nat)
    requires i < |free|
  {
    free[i] in mem && |mem[free[i]]| == 512 && mem[free[i]][0] == PGSIZE * if i + 1 < |free| then free[i + 1] else 0
  }

  ghost predicate FreeOk(mem: Memory, role: map<nat, Role>, head: nat, free: seq<nat>) {
    && head == (if free == [] then 0 else free[0])
    && (forall i, j :: 0 <= i < j < |free| ==> free[i] != free[j])
    && (forall i :: 0 <= i < |free| ==> free[i] in role && role[free[i]].Free? && NextOk(mem, free, i))
  }

  ghost predicate WfBody(w: World) {
    && (forall f :: f in w.role ==> f != 0 && f in w.mem && |w.mem[f]| == 512 && RoleOk(w, f))
    && (forall r :: r in w.spaces ==>
          w.spaces[r].root == r && r in w.role && w.role[r] == Root(r) && SpaceOk(w.mem, w.role, w.spaces[r]))
    && FreeOk(w.mem, w.role, w.head, w.free)
  }

  ghost predicate WfAt(w: World, depth: nat) {
    if depth == 0 then WfBody(w) else WfAt(w, depth - 1)
  }

  lemma {:induction false} UnfoldAt(w: World, depth: nat)
    ensures WfAt(w, depth) <==> WfBody(w)
  {
    if depth > 0 {
      UnfoldAt(w, depth - 1);
    }
  }

  lemma UnfoldWorld(w: World)
    ensures WfAt(w, DEPTH) <==> WfBody(w)
  {
    UnfoldAt(w, DEPTH);
  }

  ghost function Nothing(): (w: World)
    ensures WfAt(w, DEPTH)
  {
    var w := World(map[], 0, [], map[], map[]);
    UnfoldWorld(w);
    w
  }

  type WfWorld = w: World | WfAt(w, DEPTH) ghost witness Nothing()

  // ---------------------------------------------------------------- changing the world

  predicate Mine(x: Role, r: nat) {
    x.Held? || Within(x, r)
  }

  /** Only held pages and pages of space `r` are touched, and they stay so. */
  ghost predicate Touches(w: World, w': World, r: nat) {
    && w'.role.Keys == w.role.Keys && w'.head == w.head && w'.free == w.free
    && forall f :: f in w.role && f in w.mem ==>
         SamePage(w.mem, w.role, w'.mem, w'.role, f)
         || (Mine(w.role[f], r) && f in w'.role && Mine(w'.role[f], r) && f in w'.mem && |w'.mem[f]| == 512)
  }

  lemma {:induction false} OthersUndisturbed(w: World, w': World, r: nat, q: nat)
    requires Touches(w, w', r) && q != r
    requires forall f :: f in w.role ==> f in w.mem
    ensures Undisturbed(w.mem, w.role, w'.mem, w'.role, q)
  {
  }

  lemma {:induction false} FreeUndisturbed(w: World, w': World, r: nat)
    requires WfBody(w) && Touches(w, w', r)
    ensures FreeOk(w'.mem, w'.role, w'.head, w'.free)
  {
    forall i | 0 <= i < |w'.free|
      ensures w'.free[i] in w'.role && w'.role[w'.free[i]].Free? && NextOk(w'.mem, w'.free, i)
    {
      assert NextOk(w.mem, w.free, i);
      assert SamePage(w.mem, w.role, w'.mem, w'.role, w.free[i]);
    }
  }

  /** The spaces other than `r` are the same. */
  ghost predicate SameOthers(w: World, w': World, r: nat) {
    && (forall q :: q in w.spaces && q != r ==> q in w'.spaces && w'.spaces[q] == w.spaces[q])
    && (forall q :: q in w'.spaces && q != r ==> q in w.spaces)
  }

  lemma {:induction false} OtherSpaceOk(w: World, w': World, r: nat, q: nat)
    requires WfBody(w) && Touches(w, w', r) && SameOthers(w, w', r) && q in w'.spaces && q != r
    ensures w'.spaces[q].root == q && SpaceOk(w'.mem, w'.role, w'.spaces[q])
  {
    OthersUndisturbed(w, w', r, q);
    SpaceFrame(w.mem, w.role, w'.mem, w'.role, w.spaces[q]);
  }

  /** A step on space `r`, whether it makes, changes or removes it, keeps the world well
      formed if the space comes out well formed. */
  lemma {:induction false} StepInside(w: World, w': World, r: nat)
    requires WfBody(w) && Touches(w, w', r) && SameOthers(w, w', r)
    requires r in w'.spaces ==>
               w'.spaces[r].root == r && r in w'.role && w'.role[r] == Root(r) && SpaceOk(w'.mem, w'.role, w'.spaces[r])
    requires forall f :: f in w'.role && Within(w'.role[f], r) ==> RoleOk(w', f)
    ensures WfBody(w')
  {
    FreeUndisturbed(w, w', r);
    forall q | q in w'.spaces ensures w'.spaces[q].root == q && SpaceOk(w'.mem, w'.role, w'.spaces[q]) {
      if q != r {
        OtherSpaceOk(w, w', r, q);
      }
    }
    forall f | f in w'.role ensures f != 0 && f in w'.mem && |w'.mem[f]| == 512 && RoleOk(w', f) {
      assert f in w.role && RoleOk(w, f);
    }
  }

  /** A page filled with one byte, as a sequence of 64-bit words. */
  function Filled(byte: nat): seq<nat> { seq(512, _ => byte * 0x0101_0101_0101_0101) }

  /** kalloc: the first free page leaves the list, filled with 5s, and is held. */
  ghost function Allocated(w: World): World
    requires w.free != []
  {
    var f := w.free[0];
    World(w.mem[f := Filled(5)], if |w.free| > 1 then w.free[1] else 0, w.free[1..], w.role[f := Held], w.spaces)
  }

  lemma {:induction false} OutsideUndisturbed(
    mem: Memory, role: map<nat, Role>, f: nat, page: seq<nat>, x: Role, q: nat)
    requires f in role && (role[f].Free? || role[f].Held?)
    ensures Undisturbed(mem, role, mem[f := page], role[f := x], q)
  {
  }

  /** A step that only touches page `f`, which is in no address space. */
  lemma {:induction false} StepOutside(w: World, w': World, f: nat)
    requires WfBody(w) && f in w.role && (w.role[f].Free? || w.role[f].Held?)
    requires f in w'.role && (w'.role[f].Free? || w'.role[f].Held?) && f in w'.mem && |w'.mem[f]| == 512
    requires w'.role == w.role[f := w'.role[f]] && w'.mem == w.mem[f := w'.mem[f]] && w'.spaces == w.spaces
    requires FreeOk(w'.mem, w'.role, w'.head, w'.free)
    requires forall g :: g in w'.role && w'.role[g].Free? ==> g in w'.free
    ensures WfBody(w')
  {
    forall q | q in w'.spaces ensures w'.spaces[q].root == q && SpaceOk(w'.mem, w'.role, w'.spaces[q]) {
      OutsideUndisturbed(w.mem, w.role, f, w'.mem[f], w'.role[f], q);
      SpaceFrame(w.mem, w.role, w'.mem, w'.role, w.spaces[q]);
    }
    forall g | g in w'.role ensures g != 0 && g in w'.mem && |w'.mem[g]| == 512 && RoleOk(w', g) {
      assert RoleOk(w, g);
    }
  }

  /** The free list after taking its first page. */
  lemma {:induction false} TakeFirst(mem: Memory, role: map<nat, Role>, head: nat, free: seq<nat>, page: seq<nat>)
    requires FreeOk(mem, role, head, free) && free != []
    ensures FreeOk(mem[head := page], role[head := Held], if |free| > 1 then free[1] else 0, free[1..])
  {
    var rest, mem' := free[1..], mem[head := page];
    forall i | 0 <= i < |rest| ensures NextOk(mem', rest, i) {
      assert NextOk(mem, free, i + 1);
    }
  }

  /** The free list after pushing a page on it. */
  lemma {:induction false} PushFirst(
    mem: Memory, role: map<nat, Role>, head: nat, free: seq<nat>, f: nat, page: seq<nat>)
    requires FreeOk(mem, role, head, free) && f in role && !role[f].Free?
    requires |page| == 512 && page[0] == PGSIZE * head
    ensures FreeOk(mem[f := page], role[f := Free], f, [f] + free)
  {
    var more, mem' := [f] + free, mem[f := page];
    forall i | 0 <= i < |more| ensures NextOk(mem', more, i) {
      if i > 0 {
        assert NextOk(mem, free, i - 1);
      }
    }
  }

  lemma {:induction false} AllocatedWf(w: WfWorld)
    requires w.free != []
    ensures WfAt(Allocated(w), DEPTH)
    ensures w.head == w.free[0] && w.head != 0 && w.head in w.mem && w.head in w.role && w.role[w.head] == Free
    ensures |w.mem[w.head]| == 512 && w.mem[w.head][0] == PGSIZE * Allocated(w).head
  {
    UnfoldWorld(w);
    UnfoldWorld(Allocated(w));
    assert NextOk(w.mem, w.free, 0);
    TakeFirst(w.mem, w.role, w.head, w.free, Filled(5));
    forall g | g in w.role && g != w.head && w.role[g].Free? ensures g in w.free[1..] {
      assert RoleOk(w, g);
    }
    StepOutside(w, Allocated(w), w.head);
  }

  /** kfree: the page is filled with 1s and pushed on the free list. */
  ghost function Released(w: World, f: nat): World {
    World(w.mem[f := LinkedPage(w.head)], f, [f] + w.free, w.role[f := Free], w.spaces)
  }

  /** A page of 1s whose first word is the address of page `next`. */
  function LinkedPage(next: nat): (page: seq<nat>)
    ensures |page| == 512 && page[0] == PGSIZE * next
  {
    var page: seq<nat> := Filled(1)[0 := PGSIZE * next];
    page
  }

  lemma {:induction false} ReleasedWf(w: WfWorld, f: nat)
    requires f in w.role && w.role[f].Held?
    ensures WfAt(Released(w, f), DEPTH) && f != 0 && f in w.mem
  {
    UnfoldWorld(w);
    UnfoldWorld(Released(w, f));
    PushFirst(w.mem, w.role, w.head, w.free, f, LinkedPage(w.head));
    forall g | g in w.role && g != f && w.role[g].Free? ensures g in [f] + w.free {
      assert RoleOk(w, g);
    }
    StepOutside(w, Released(w, f), f);
  }

  /** Whoever holds a page may write it. */
  lemma {:induction false} HeldWrite(w: WfWorld, f: nat, page: seq<nat>)
    requires f in w.role && w.role[f].Held? && |page| == 512
    ensures f in w.mem && WfAt(w.(mem := w.mem[f := page]), DEPTH)
  {
    UnfoldWorld(w);
    var w' := w.(mem := w.mem[f := page]);
    UnfoldWorld(w');
    forall i | 0 <= i < |w.free| ensures NextOk(w'.mem, w.free, i) {
      assert NextOk(w.mem, w.free, i) && w.free[i] != f;
    }
    forall g | g in w.role && g != f && w.role[g].Free? ensures g in w.free {
      assert RoleOk(w, g);
    }
    assert w.role[f := Held] == w.role;
    StepOutside(w, w', f);
  }

  // ---------------------------------------------------------------- steps on spaces

  /** A held, zeroed page becomes the root of an empty address space. */
  ghost function Opened(w: World, r: nat): World {
    w.(role := w.role[r := Root(r)], spaces := w.spaces[r := Space(r, map[], map[], map[], map[])])
  }

  lemma {:induction false} EmptySpace(mem: Memory, role: map<nat, Role>, r: nat)
    requires r in role && role[r] == Root(r) && r in mem && mem[r] == Zeros()
    ensures SpaceOk(mem, role, Space(r, map[], map[], map[], map[]))
  {
    TableZero(0, map[], false);
    UnfoldSpace(mem, role, Space(r, map[], map[], map[], map[]));
  }

  lemma {:induction false} OpenedWf(w: WfWorld, r: nat)
    requires r in w.role && w.role[r].Held? && r in w.mem && w.mem[r] == Zeros()
    ensures r !in w.spaces && WfAt(Opened(w, r), DEPTH)
  {
    UnfoldWorld(w);
    UnfoldWorld(Opened(w, r));
    EmptySpace(w.mem, w.role[r := Root(r)], r);
    assert forall g :: g in w.role ==> RoleOk(w, g);
    StepInside(w, Opened(w, r), r);
  }

  /** The root of an empty address space goes back to being held. */
  ghost function Closed(w: World, r: nat): World {
    w.(role := w.role[r := Held], spaces := w.spaces - {r})
  }

  /** No second-level tables: no tables and no pages at all. */
  lemma {:induction false} NothingBelow(mem: Memory, role: map<nat, Role>, sp: Space)
    requires SpaceOk(mem, role, sp) && sp.mid == map[]
    ensures sp.low == map[] && sp.leaf == map[]
  {
    UnfoldSpace(mem, role, sp);
    assert forall p :: p in sp.low ==> LowOk(mem, role, sp, p);
    assert forall v :: v in sp.leaf ==> LeafOk(role, sp, v);
  }

  lemma {:induction false} ClosedWf(w: WfWorld, r: nat)
    requires r in w.spaces && w.spaces[r].mid == map[]
    ensures r in w.role && WfAt(Closed(w, r), DEPTH)
  {
    UnfoldWorld(w);
    UnfoldWorld(Closed(w, r));
    NothingBelow(w.mem, w.role, w.spaces[r]);
    forall g | g in w.role && g != r ensures !Within(w.role[g], r) {
      assert RoleOk(w, g);
    }
    StepInside(w, Closed(w, r), r);
  }

  /** The world after the space with root `sp.root`, the memory and the roles changed. */
  ghost function Changed(w: World, mem: Memory, role: map<nat, Role>, sp: Space): World {
    w.(mem := mem, role := role, spaces := w.spaces[sp.root := sp])
  }

  lemma {:induction false} ChangedTouches(w: World, g: nat, k: nat, x: nat, f: nat, y: Role, sp: Space)
    requires g in w.role && Within(w.role[g], sp.root) && k < 512 && g in w.mem && |w.mem[g]| == 512
    requires f in w.role && Mine(w.role[f], sp.root) && Mine(y, sp.root)
    requires forall h :: h in w.role && h in w.mem ==> |w.mem[h]| == 512
    ensures Touches(w, Changed(w, Poke(w.mem, g, k, x), w.role[f := y], sp), sp.root)
  {
  }

  /** One word of one of space r's tables and the role of one page change. */
  lemma {:induction false} ChangedWf(w: World, g: nat, k: nat, x: nat, f: nat, y: Role, sp: Space)
    requires WfBody(w) && sp.root in w.spaces && g in w.role && Within(w.role[g], sp.root) && k < 512
    requires g in w.mem && |w.mem[g]| == 512
    requires f in w.role && Mine(w.role[f], sp.root) && Mine(y, sp.root) && f != sp.root
    requires SpaceOk(Poke(w.mem, g, k, x), w.role[f := y], sp)
    requires forall h :: h in w.role && Within(if h == f then y else w.role[h], sp.root) ==>
               RoleOk(Changed(w, Poke(w.mem, g, k, x), w.role[f := y], sp), h)
    ensures WfBody(Changed(w, Poke(w.mem, g, k, x), w.role[f := y], sp))
  {
    ChangedTouches(w, g, k, x, f, y, sp);
    StepInside(w, Changed(w, Poke(w.mem, g, k, x), w.role[f := y], sp), sp.root);
  }

  /** Links a held, zeroed page in as a second-level table. */
  ghost function LinkedMid(w: World, r: nat, i: nat, f: nat): World
    requires r in w.spaces && r in w.mem && i < |w.mem[r]|
  {
    var sp := w.spaces[r];
    Changed(w, Poke(w.mem, r, i, Pointer(f)), w.role[f := Mid(r, i)], sp.(root := r, mid := sp.mid[i := f]))
  }

  lemma {:induction false} LinkedMidWf(w: WfWorld, r: nat, i: nat, f: nat)
    requires r in w.spaces && i < 512 && i !in w.spaces[r].mid
    requires f in w.role && w.role[f].Held? && f in w.mem && w.mem[f] == Zeros()
    ensures r in w.mem && |w.mem[r]| == 512 && WfAt(LinkedMid(w, r, i, f), DEPTH)
  {
    UnfoldWorld(w);
    var sp := w.spaces[r];
    SpaceAddMid(w.mem, w.role, sp, i, f);
    UnfoldWorld(LinkedMid(w, r, i, f));
    LinkMidWf(w, r, i, sp.(root := r, mid := sp.mid[i := f]), f);
  }

  lemma {:induction false} LinkMidWf(w: World, r: nat, i: nat, sp: Space, f: nat)
    requires WfBody(w) && r in w.spaces && sp == w.spaces[r].(root := r, mid := w.spaces[r].mid[i := f]) && i < 512
    requires r in w.role && Within(w.role[r], r) && r in w.mem && |w.mem[r]| == 512
    requires i !in w.spaces[r].mid && f in w.role && w.role[f].Held?
    requires SpaceOk(Poke(w.mem, r, i, Pointer(f)), w.role[f := Mid(r, i)], sp)
    ensures WfBody(Changed(w, Poke(w.mem, r, i, Pointer(f)), w.role[f := Mid(r, i)], sp))
  {
    var w' := Changed(w, Poke(w.mem, r, i, Pointer(f)), w.role[f := Mid(r, i)], sp);
    forall h | h in w.role && Within(w'.role[h], r) ensures RoleOk(w', h) {
      assert RoleOk(w, h);
    }
    ChangedWf(w, r, i, Pointer(f), f, Mid(r, i), sp);
  }

  /** Links a held, zeroed page in as a lowest-level table. */
  ghost function LinkedLow(w: World, r: nat, p: nat, f: nat): World
    requires r in w.spaces && p / 512 in w.spaces[r].mid
    requires var g := w.spaces[r].mid[p / 512]; g in w.mem && |w.mem[g]| == 512
  {
    var sp := w.spaces[r];
    Changed(w, Poke(w.mem, sp.mid[p / 512], p % 512, Pointer(f)), w.role[f := Low(r, p)],
            sp.(root := r, low := sp.low[p := f]))
  }

  lemma {:induction false} LinkedLowWf(w: WfWorld, r: nat, p: nat, f: nat)
    requires r in w.spaces && p !in w.spaces[r].low && p / 512 in w.spaces[r].mid
    requires f in w.role && w.role[f].Held? && f in w.mem && w.mem[f] == Zeros()
    ensures var g := w.spaces[r].mid[p / 512]; g in w.mem && |w.mem[g]| == 512
    ensures WfAt(LinkedLow(w, r, p, f), DEPTH)
  {
    UnfoldWorld(w);
    var sp := w.spaces[r];
    SpaceAddLow(w.mem, w.role, sp, p, f);
    UnfoldWorld(LinkedLow(w, r, p, f));
    LinkLowWf(w, r, p, sp.(root := r, low := sp.low[p := f]), sp.mid[p / 512], p % 512, f);
  }

  lemma {:induction false} LinkLowWf(w: World, r: nat, p: nat, sp: Space, g: nat, k: nat, f: nat)
    requires WfBody(w) && r in w.spaces && sp == w.spaces[r].(root := r, low := w.spaces[r].low[p := f]) && k < 512
    requires g in w.role && Within(w.role[g], r) && g in w.mem && |w.mem[g]| == 512
    requires p !in w.spaces[r].low && f in w.role && w.role[f].Held?
    requires SpaceOk(Poke(w.mem, g, k, Pointer(f)), w.role[f := Low(r, p)], sp)
    ensures WfBody(Changed(w, Poke(w.mem, g, k, Pointer(f)), w.role[f := Low(r, p)], sp))
  {
    var w' := Changed(w, Poke(w.mem, g, k, Pointer(f)), w.role[f := Low(r, p)], sp);
    forall h | h in w.role && Within(w'.role[h], r) ensures RoleOk(w', h) {
      assert RoleOk(w, h);
    }
    ChangedWf(w, g, k, Pointer(f), f, Low(r, p), sp);
  }

  /** Stores the entry of virtual page `v`; a user page takes over a held page. */
  ghost function Mapped(w: World, r: nat, v: nat, e: nat): World
    requires r in w.spaces && v / 512 in w.spaces[r].low
    requires var g := w.spaces[r].low[v / 512]; g in w.mem && |w.mem[g]| == 512
  {
    var sp := w.spaces[r];
    Changed(w, Poke(w.mem, sp.low[v / 512], v % 512, e),
            if v < TRAPFRAME then w.role[Ppn(e) := User(r, v)] else w.role,
            sp.(root := r, leaf := sp.leaf[v := e], page := sp.page[v := Ppn(e)]))
  }

  lemma {:induction false} MapUserWf(w: World, r: nat, v: nat, e: nat, sp: Space, g: nat, k: nat, f: nat)
    requires WfBody(w) && r in w.spaces && sp.root == r && v < TRAPFRAME && k < 512
    requires sp.mid == w.spaces[r].mid && sp.low == w.spaces[r].low
    requires sp.leaf == w.spaces[r].leaf[v := e] && sp.page == w.spaces[r].page[v := f]
    requires g in w.role && Within(w.role[g], r) && g in w.mem && |w.mem[g]| == 512
    requires v !in w.spaces[r].leaf && f in w.role && w.role[f].Held?
    requires SpaceOk(Poke(w.mem, g, k, e), w.role[f := User(r, v)], sp)
    ensures WfBody(Changed(w, Poke(w.mem, g, k, e), w.role[f := User(r, v)], sp))
  {
    var w' := Changed(w, Poke(w.mem, g, k, e), w.role[f := User(r, v)], sp);
    forall h | h in w.role && Within(w'.role[h], r) ensures RoleOk(w', h) {
      assert RoleOk(w, h);
    }
    ChangedWf(w, g, k, e, f, User(r, v), sp);
  }

  lemma {:induction false} MapOtherWf(w: World, r: nat, v: nat, e: nat, sp: Space, g: nat, k: nat)
    requires WfBody(w) && r in w.spaces && sp.root == r && v >= TRAPFRAME && k < 512
    requires sp.mid == w.spaces[r].mid && sp.low == w.spaces[r].low
    requires forall u :: u in w.spaces[r].leaf && u != v ==> u in sp.leaf
    requires forall u :: u in w.spaces[r].page && u != v ==> u in sp.page && sp.page[u] == w.spaces[r].page[u]
    requires g in w.role && Within(w.role[g], r) && g in w.mem && |w.mem[g]| == 512
    requires SpaceOk(Poke(w.mem, g, k, e), w.role, sp)
    ensures WfBody(Changed(w, Poke(w.mem, g, k, e), w.role, sp))
  {
    var w' := Changed(w, Poke(w.mem, g, k, e), w.role, sp);
    forall h | h in w.role && Within(w'.role[h], r) ensures RoleOk(w', h) {
      assert RoleOk(w, h);
    }
    StepInside(w, w', r);
  }

  lemma {:induction false} MappedWf(w: WfWorld, r: nat, v: nat, e: nat)
    requires r in w.spaces && v !in w.spaces[r].leaf && v / 512 in w.spaces[r].low && v < PAGES && IsValid(e)
             && IsLeaf(e)
    requires v < TRAPFRAME ==> Ppn(e) in w.role && w.role[Ppn(e)].Held?
    ensures var g := w.spaces[r].low[v / 512]; g in w.mem && |w.mem[g]| == 512
    ensures WfAt(Mapped(w, r, v, e), DEPTH)
  {
    UnfoldWorld(w);
    var sp, g := w.spaces[r], w.spaces[r].low[v / 512];
    var role' := if v < TRAPFRAME then w.role[Ppn(e) := User(r, v)] else w.role;
    SpaceMap(w.mem, w.role, role', sp, v, e);
    UnfoldWorld(Mapped(w, r, v, e));
    if v < TRAPFRAME {
      MapUserWf(w, r, v, e, sp.(leaf := sp.leaf[v := e], page := sp.page[v := Ppn(e)]), g, v % 512, Ppn(e));
    } else {
      MapOtherWf(w, r, v, e, sp.(leaf := sp.leaf[v := e], page := sp.page[v := Ppn(e)]), g, v % 512);
    }
  }

  /** Clears the entry of virtual page `v`; a user page goes back to being held. */
  ghost function Unmapped(w: World, r: nat, v: nat): World
    requires r in w.spaces && v in w.spaces[r].leaf && v in w.spaces[r].page && v / 512 in w.spaces[r].low
    requires var g := w.spaces[r].low[v / 512]; g in w.mem && |w.mem[g]| == 512
  {
    var sp := w.spaces[r];
    Changed(w, Poke(w.mem, sp.low[v / 512], v % 512, 0),
            if v < TRAPFRAME then w.role[sp.page[v] := Held] else w.role,
            sp.(root := r, leaf := sp.leaf - {v}))
  }

  lemma {:induction false} LeafIn(mem: Memory, role: map<nat, Role>, sp: Space, v: nat)
    requires SpaceOk(mem, role, sp) && v in sp.leaf
    ensures LeafOk(role, sp, v)
  {
    UnfoldSpace(mem, role, sp);
  }

  lemma {:induction false} UnmapUserWf(w: World, r: nat, v: nat, sp: Space, g: nat, k: nat, f: nat)
    requires WfBody(w) && r in w.spaces && sp.root == r && v < TRAPFRAME && k < 512
    requires sp == w.spaces[r].(leaf := w.spaces[r].leaf - {v})
    requires g in w.role && Within(w.role[g], r) && g in w.mem && |w.mem[g]| == 512
    requires f in w.role && w.role[f] == User(r, v)
    requires SpaceOk(Poke(w.mem, g, k, 0), w.role[f := Held], sp)
    ensures WfBody(Changed(w, Poke(w.mem, g, k, 0), w.role[f := Held], sp))
  {
    var w' := Changed(w, Poke(w.mem, g, k, 0), w.role[f := Held], sp);
    assert RoleOk(w, f);
    forall h | h in w.role && Within(w'.role[h], r) ensures RoleOk(w', h) {
      assert RoleOk(w, h);
      assert w.role[h].User? ==> w.role[h].v != v;
    }
    ChangedWf(w, g, k, 0, f, Held, sp);
  }

  lemma {:induction false} UnmappedWf(w: WfWorld, r: nat, v: nat)
    requires r in w.spaces && v in w.spaces[r].leaf
    ensures v / 512 in w.spaces[r].low && var g := w.spaces[r].low[v / 512]; g in w.mem && |w.mem[g]| == 512
    ensures v in w.spaces[r].page && w.spaces[r].page[v] == Ppn(w.spaces[r].leaf[v])
    ensures v < TRAPFRAME ==> w.spaces[r].page[v] in w.role && w.role[w.spaces[r].page[v]] == User(r, v)
    ensures WfAt(Unmapped(w, r, v), DEPTH)
  {
    UnfoldWorld(w);
    var sp := w.spaces[r];
    LeafIn(w.mem, w.role, sp, v);
    var role' := if v < TRAPFRAME then w.role[sp.page[v] := Held] else w.role;
    SpaceUnmap(w.mem, w.role, role', sp, v);
    UnfoldWorld(Unmapped(w, r, v));
    var g := sp.low[v / 512];
    if v < TRAPFRAME {
      UnmapUserWf(w, r, v, sp.(leaf := sp.leaf - {v}), g, v % 512, sp.page[v]);
    } else {
      MapOtherWf(w, r, v, 0, sp.(leaf := sp.leaf - {v}), g, v % 512);
    }
  }

  /** Unlinks a lowest-level table that has no entries left. */
  ghost function UnlinkedLow(w: World, r: nat, p: nat): World
    requires r in w.spaces && p in w.spaces[r].low && p / 512 in w.spaces[r].mid
    requires var g := w.spaces[r].mid[p / 512]; g in w.mem && |w.mem[g]| == 512
  {
    var sp := w.spaces[r];
    Changed(w, Poke(w.mem, sp.mid[p / 512], p % 512, 0), w.role[sp.low[p] := Held], sp.(root := r, low := sp.low - {p}))
  }

  lemma {:induction false} UnlinkedLowWf(w: WfWorld, r: nat, p: nat)
    requires r in w.spaces && p in w.spaces[r].low && forall v :: v in w.spaces[r].leaf ==> v / 512 != p
    ensures p / 512 in w.spaces[r].mid && var g := w.spaces[r].mid[p / 512]; g in w.mem && |w.mem[g]| == 512
    ensures w.spaces[r].low[p] in w.role && w.spaces[r].low[p] in w.mem && w.mem[w.spaces[r].low[p]] == Zeros()
    ensures WfAt(UnlinkedLow(w, r, p), DEPTH)
  {
    UnfoldWorld(w);
    var sp := w.spaces[r];
    SpaceDropLow(w.mem, w.role, sp, p);
    TableEmpty(w.mem[sp.low[p]], p, sp.leaf, true);
    UnfoldWorld(UnlinkedLow(w, r, p));
    UnlinkLowWf(w, r, p, sp.(root := r, low := sp.low - {p}), sp.mid[p / 512], p % 512, sp.low[p]);
  }

  lemma {:induction false} UnlinkLowWf(w: World, r: nat, p: nat, sp: Space, g: nat, k: nat, f: nat)
    requires WfBody(w) && r in w.spaces && sp == w.spaces[r].(root := r, low := w.spaces[r].low - {p}) && k < 512
    requires g in w.role && Within(w.role[g], r) && g in w.mem && |w.mem[g]| == 512
    requires f in w.role && w.role[f] == Low(r, p)
    requires SpaceOk(Poke(w.mem, g, k, 0), w.role[f := Held], sp)
    ensures WfBody(Changed(w, Poke(w.mem, g, k, 0), w.role[f := Held], sp))
  {
    var w' := Changed(w, Poke(w.mem, g, k, 0), w.role[f := Held], sp);
    assert RoleOk(w, f);
    forall h | h in w.role && Within(w'.role[h], r) ensures RoleOk(w', h) {
      assert RoleOk(w, h);
      assert w.role[h].Low? ==> w.role[h].p != p;
    }
    ChangedWf(w, g, k, 0, f, Held, sp);
  }

  /** Unlinks a second-level table that has no entries left. */
  ghost function UnlinkedMid(w: World, r: nat, i: nat): World
    requires r in w.spaces && i in w.spaces[r].mid && r in w.mem && i < |w.mem[r]|
  {
    var sp := w.spaces[r];
    Changed(w, Poke(w.mem, r, i, 0), w.role[sp.mid[i] := Held], sp.(root := r, mid := sp.mid - {i}))
  }

  lemma {:induction false} UnlinkedMidWf(w: WfWorld, r: nat, i: nat)
    requires r in w.spaces && i in w.spaces[r].mid && forall p :: p in w.spaces[r].low ==> p / 512 != i
    ensures i < 512 && r in w.mem && |w.mem[r]| == 512
    ensures w.spaces[r].mid[i] in w.role && w.spaces[r].mid[i] in w.mem && w.mem[w.spaces[r].mid[i]] == Zeros()
    ensures WfAt(UnlinkedMid(w, r, i), DEPTH)
  {
    UnfoldWorld(w);
    var sp := w.spaces[r];
    SpaceDropMid(w.mem, w.role, sp, i);
    TableEmpty(w.mem[sp.mid[i]], i, sp.low, false);
    UnfoldWorld(UnlinkedMid(w, r, i));
    UnlinkMidWf(w, r, i, sp.(root := r, mid := sp.mid - {i}), sp.mid[i]);
  }

  lemma {:induction false} UnlinkMidWf(w: World, r: nat, i: nat, sp: Space, f: nat)
    requires WfBody(w) && r in w.spaces && sp == w.spaces[r].(root := r, mid := w.spaces[r].mid - {i}) && i < 512
    requires f in w.role && w.role[f] == Mid(r, i) && r in w.mem && |w.mem[r]| == 512
    requires SpaceOk(Poke(w.mem, r, i, 0), w.role[f := Held], sp)
    ensures WfBody(Changed(w, Poke(w.mem, r, i, 0), w.role[f := Held], sp))
  {
    var w' := Changed(w, Poke(w.mem, r, i, 0), w.role[f := Held], sp);
    assert RoleOk(w, f);
    forall h | h in w.role && Within(w'.role[h], r) ensures RoleOk(w', h) {
      assert RoleOk(w, h);
      assert w.role[h].Mid? ==> w.role[h].i != i;
    }
    ChangedWf(w, r, i, 0, f, Held, sp);
  }
}
