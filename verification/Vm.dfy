/** Virtual memory (kernel/vm.c) over the page allocator (kernel/kalloc.c), working in place
    on physical memory. Addresses that the source keeps page aligned are page numbers here;
    `r` names an address space by its root page. */
module Vm {
  import opened PageTable
  import opened PageBudget

  // ---------------------------------------------------------------- reading tables

  lemma {:induction false} SpaceIn(w: WfWorld, r: nat)
    requires r in w.spaces
    ensures w.spaces[r].root == r && r in w.role && w.role[r] == Root(r) && SpaceOk(w.mem, w.role, w.spaces[r])
  {
    UnfoldWorld(w);
  }

  lemma {:induction false} RootIn(mem: Memory, role: map<nat, Role>, sp: Space)
    requires SpaceOk(mem, role, sp)
    ensures sp.root in mem && TableIs(mem[sp.root], 0, sp.mid, false)
  {
    UnfoldSpace(mem, role, sp);
  }

  lemma {:induction false} MidIn(mem: Memory, role: map<nat, Role>, sp: Space, i: nat)
    requires SpaceOk(mem, role, sp) && i in sp.mid
    ensures MidOk(mem, role, sp, i)
  {
    UnfoldSpace(mem, role, sp);
  }

  lemma {:induction false} LowIn(mem: Memory, role: map<nat, Role>, sp: Space, p: nat)
    requires SpaceOk(mem, role, sp) && p in sp.low
    ensures LowOk(mem, role, sp, p)
  {
    UnfoldSpace(mem, role, sp);
  }

  lemma {:induction false} ReadTable(page: seq<nat>, base: nat, m: map<nat, nat>, k: nat, leaf: bool)
    requires TableIs(page, base, m, leaf) && k / 512 == base
    ensures k !in m ==> page[k % 512] == 0
    ensures k in m && leaf ==> page[k % 512] == m[k]
    ensures k in m && !leaf ==> IsValid(page[k % 512]) && !IsLeaf(page[k % 512]) && Ppn(page[k % 512]) == m[k]
  {
    assert page[k % 512] == Entry(m, Key(base, k % 512), leaf);
    assert Key(base, k % 512) == k;
    if k in m {
      PointerRoundTrip(m[k]);
    }
  }

  lemma {:induction false} ReadRoot(w: WfWorld, r: nat, i: nat)
    requires r in w.spaces && i < 512
    ensures r in w.mem && |w.mem[r]| == 512 && r in w.role && w.role[r] == Root(r) && w.spaces[r].root == r
    ensures IsValid(w.mem[r][i]) <==> i in w.spaces[r].mid
    ensures i in w.spaces[r].mid ==> Ppn(w.mem[r][i]) == w.spaces[r].mid[i] && !IsLeaf(w.mem[r][i])
  {
    SpaceIn(w, r);
    RootIn(w.mem, w.role, w.spaces[r]);
    ReadTable(w.mem[r], 0, w.spaces[r].mid, i, false);
  }

  lemma {:induction false} ReadMid(w: WfWorld, r: nat, p: nat)
    requires r in w.spaces && p / 512 in w.spaces[r].mid
    ensures var g := w.spaces[r].mid[p / 512];
            && g in w.mem && |w.mem[g]| == 512 && g in w.role && w.role[g] == Mid(r, p / 512)
            && (IsValid(w.mem[g][p % 512]) <==> p in w.spaces[r].low)
            && (p in w.spaces[r].low ==> Ppn(w.mem[g][p % 512]) == w.spaces[r].low[p] && !IsLeaf(w.mem[g][p % 512]))
  {
    SpaceIn(w, r);
    MidIn(w.mem, w.role, w.spaces[r], p / 512);
    ReadTable(w.mem[w.spaces[r].mid[p / 512]], p / 512, w.spaces[r].low, p, false);
  }

  lemma {:induction false} ReadLow(w: WfWorld, r: nat, v: nat)
    requires r in w.spaces && v / 512 in w.spaces[r].low
    ensures var g := w.spaces[r].low[v / 512];
            && g in w.mem && |w.mem[g]| == 512 && g in w.role && w.role[g] == Low(r, v / 512)
            && v / 512 / 512 in w.spaces[r].mid
            && (IsValid(w.mem[g][v % 512]) <==> v in w.spaces[r].leaf)
            && (v in w.spaces[r].leaf ==> w.mem[g][v % 512] == w.spaces[r].leaf[v] && LeafOk(w.role, w.spaces[r], v))
  {
    SpaceIn(w, r);
    LowIn(w.mem, w.role, w.spaces[r], v / 512);
    ReadTable(w.mem[w.spaces[r].low[v / 512]], v / 512, w.spaces[r].leaf, v, true);
    if v in w.spaces[r].leaf {
      LeafIn(w.mem, w.role, w.spaces[r], v);
    }
  }

  lemma {:induction false} EmptyList(w: WfWorld)
    ensures w.head == 0 <==> w.free == []
  {
    if w.free != [] {
      AllocatedWf(w);
    } else {
      UnfoldWorld(w);
    }
  }

  /** Where a page mapped at `v` must have its tables. */
  lemma {:induction false} LeafHasTables(w: WfWorld, r: nat, v: nat)
    requires r in w.spaces && v in w.spaces[r].leaf
    ensures v < PAGES && v / 512 in w.spaces[r].low && LeafOk(w.role, w.spaces[r], v) && w.spaces[r].root == r
  {
    SpaceIn(w, r);
    LeafIn(w.mem, w.role, w.spaces[r], v);
  }

  // ---------------------------------------------------------------- what operations may change

  /** The contents of held pages and of user pages are as they were. */
  ghost predicate SameData(w: World, w': World) {
    forall f :: f in w.role && f in w.mem && (w.role[f].Held? || w.role[f].User?) ==>
      f in w'.mem && w'.mem[f] == w.mem[f]
  }

  function LeafPte(f: nat, perm: nat): nat { if perm < 1024 then MakePte(f, perm) else 0 }

  /** `m` with entries for `k` pages from `v` on, naming the physical pages from `f` on. */
  ghost predicate WithRange(m': map<nat, nat>, m: map<nat, nat>, v: nat, k: nat, f: nat, perm: nat) {
    && (forall u :: u in m' <==> u in m || v <= u < v + k)
    && (forall u :: u in m' ==> m'[u] == if v <= u < v + k then LeafPte(f + (u - v), perm) else m[u])
  }

  /** The role of physical page `h` once `f`, .., `f + k - 1` are mapped at `v`, ..: those
      mapped as user pages belong to the space. */
  function RoleOnceMapped(x: Role, h: nat, r: nat, v: nat, k: nat, f: nat): Role {
    if f <= h < f + k && v + (h - f) < TRAPFRAME then User(r, v + (h - f)) else x
  }

  /** A table, other than the root, of space `r`. */
  predicate TableOf(x: Role, r: nat) { (x.Mid? || x.Low?) && x.r == r }

  ghost predicate RolesMap(role: map<nat, Role>, role': map<nat, Role>, r: nat, v: nat, k: nat, f: nat)
    requires role'.Keys == role.Keys
  {
    && (forall h :: h in role && !role[h].Free? ==> role'[h] == RoleOnceMapped(role[h], h, r, v, k, f))
    && (forall h :: h in role' && role[h].Free? && role'[h] != Free ==> TableOf(role'[h], r))
  }

  ghost predicate RolesGrow(role: map<nat, Role>, role': map<nat, Role>, r: nat)
    requires role'.Keys == role.Keys
  {
    && (forall f :: f in role && !role[f].Free? ==> role'[f] == role[f])
    && (forall f :: f in role' && role'[f] != role[f] ==> TableOf(role'[f], r))
  }

  ghost predicate RolesUnmap(role: map<nat, Role>, role': map<nat, Role>, r: nat, v: nat, n: nat)
    requires role'.Keys == role.Keys
  {
    forall f :: f in role ==> role'[f] == RoleOnceUnmapped(role[f], r, v, n)
  }

  /** The contents of held pages and of user pages that are still in use are as they were. */
  ghost predicate SameDataKept(w: World, w': World)
    requires w'.role.Keys == w.role.Keys
  {
    forall f :: f in w.role && f in w.mem && (w.role[f].Held? || w.role[f].User?) && w'.role[f] == w.role[f] ==>
      f in w'.mem && w'.mem[f] == w.mem[f]
  }

  /** `m` without the keys v .. v + n - 1. */
  ghost predicate Without(m': map<nat, nat>, m: map<nat, nat>, v: nat, n: nat) {
    && (forall u :: u in m' <==> u in m && !(v <= u < v + n))
    && (forall u :: u in m' ==> m'[u] == m[u])
  }

  function RoleOnceUnmapped(x: Role, r: nat, v: nat, n: nat): Role {
    if x.User? && x.r == r && v <= x.v < v + n then Free else x
  }

  /** What an operation did to the world; `r` is the one address space it worked on. */
  datatype Change =
    | Grew(r: nat)
    | Maps(r: nat, v: nat, k: nat, f: nat, perm: nat)
    | Unmaps(r: nat, v: nat, n: nat)
    | Fills(r: nat, want: map<nat, Page>)
    | Prunes(r: nat)

  /** A user page to be made: its permission bits and its contents. */
  datatype Page = Page(perm: nat, data: seq<nat>)

  /** All other spaces are the same, and the same pages are managed. */
  ghost predicate Frame(w: World, w': World, r: nat) {
    SameOthers(w, w', r) && r in w.spaces && r in w'.spaces && w'.role.Keys == w.role.Keys
  }

  /** The space may have gained tables, made from free pages; no translation changed, in any
      space, and no page in use changed hands. */
  ghost predicate DidGrow(w: World, w': World, r: nat)
    requires Frame(w, w', r)
  {
    && w'.spaces[r].leaf == w.spaces[r].leaf
    && RolesGrow(w.role, w'.role, r)
    && SameData(w, w')
  }

  /** Like `DidGrow`, and moreover exactly the virtual pages v .. v + k - 1 became mapped, to
      the physical pages from `f` on. */
  ghost predicate DidMap(w: World, w': World, r: nat, v: nat, k: nat, f: nat, perm: nat)
    requires Frame(w, w', r)
  {
    && WithRange(w'.spaces[r].leaf, w.spaces[r].leaf, v, k, f, perm)
    && RolesMap(w.role, w'.role, r, v, k, f)
    && SameData(w, w')
  }

  /** Exactly the translations of v .. v + n - 1 in the space went away, and exactly the
      user pages behind them were freed. */
  ghost predicate DidUnmap(w: World, w': World, r: nat, v: nat, n: nat)
    requires Frame(w, w', r)
  {
    && Without(w'.spaces[r].leaf, w.spaces[r].leaf, v, n)
    && w'.spaces[r].mid == w.spaces[r].mid && w'.spaces[r].low == w.spaces[r].low
    && RolesUnmap(w.role, w'.role, r, v, n)
    && SameDataKept(w, w')
  }

  /** New user pages were made from free pages, exactly those wanted, with the wanted
      permissions and contents; everything in use before is as it was. */
  ghost predicate DidFill(w: World, w': World, r: nat, want: map<nat, Page>)
    requires Frame(w, w', r)
  {
    && LeavesFill(w.spaces[r].leaf, w'.spaces[r].leaf, want)
    && (forall u :: u in want ==> Filled1(w', r, u, want[u]))
    && RolesFill(w.role, w'.role, r, want)
    && SameData(w, w')
  }

  ghost predicate LeavesFill(m: map<nat, nat>, m': map<nat, nat>, want: map<nat, Page>) {
    && (forall u :: u in m' <==> u in m || u in want)
    && (forall u :: u in m ==> u !in want && m'[u] == m[u])
  }

  ghost predicate Filled1(w: World, r: nat, u: nat, x: Page)
    requires r in w.spaces
  {
    var sp := w.spaces[r];
    && u < TRAPFRAME && u in sp.leaf && u in sp.page && sp.leaf[u] == LeafPte(sp.page[u], x.perm)
    && sp.page[u] in w.mem && w.mem[sp.page[u]] == x.data && sp.page[u] in w.role && w.role[sp.page[u]] == User(r, u)
  }

  ghost predicate RolesFill(role: map<nat, Role>, role': map<nat, Role>, r: nat, want: map<nat, Page>)
    requires role'.Keys == role.Keys
  {
    && (forall h :: h in role && !role[h].Free? ==> role'[h] == role[h])
    && (forall h :: h in role' && role'[h] != role[h] ==>
          TableOf(role'[h], r) || (role'[h].User? && role'[h].r == r && role'[h].v in want))
  }

  ghost predicate RolesPrune(role: map<nat, Role>, role': map<nat, Role>, r: nat)
    requires role'.Keys == role.Keys
  {
    forall f :: f in role ==> role'[f] == role[f] || (TableOf(role[f], r) && role'[f].Free?)
  }

  /** Tables of the space were given back to the allocator; nothing else changed. */
  ghost predicate DidPrune(w: World, w': World, r: nat)
    requires Frame(w, w', r)
  {
    w'.spaces[r].leaf == w.spaces[r].leaf && RolesPrune(w.role, w'.role, r) && SameData(w, w')
  }

  ghost predicate DidBody(w: World, w': World, c: Change) {
    && Frame(w, w', c.r)
    && match c
       case Grew(r) => DidGrow(w, w', r)
       case Maps(r, v, k, f, perm) => DidMap(w, w', r, v, k, f, perm)
       case Unmaps(r, v, n) => DidUnmap(w, w', r, v, n)
       case Fills(r, want) => DidFill(w, w', r, want)
       case Prunes(r) => DidPrune(w, w', r)
  }

  ghost predicate DidAt(w: World, w': World, c: Change, depth: nat) {
    if depth == 0 then DidBody(w, w', c) else DidAt(w, w', c, depth - 1)
  }

  /** `DidBody`, kept folded. */
  ghost predicate Did(w: World, w': World, c: Change) {
    DidAt(w, w', c, DEPTH)
  }

  lemma {:induction false} UnfoldDidAt(w: World, w': World, c: Change, depth: nat)
    ensures DidAt(w, w', c, depth) <==> DidBody(w, w', c)
  {
    if depth > 0 {
      UnfoldDidAt(w, w', c, depth - 1);
    }
  }

  lemma UnfoldGrew(w: World, w': World, r: nat)
    ensures Did(w, w', Grew(r)) <==> Frame(w, w', r) && DidGrow(w, w', r)
  {
    UnfoldDidAt(w, w', Grew(r), DEPTH);
  }

  lemma UnfoldMaps(w: World, w': World, r: nat, v: nat, k: nat, f: nat, perm: nat)
    ensures Did(w, w', Maps(r, v, k, f, perm)) <==> Frame(w, w', r) && DidMap(w, w', r, v, k, f, perm)
  {
    UnfoldDidAt(w, w', Maps(r, v, k, f, perm), DEPTH);
  }

  lemma UnfoldUnmaps(w: World, w': World, r: nat, v: nat, n: nat)
    ensures Did(w, w', Unmaps(r, v, n)) <==> Frame(w, w', r) && DidUnmap(w, w', r, v, n)
  {
    UnfoldDidAt(w, w', Unmaps(r, v, n), DEPTH);
  }

  lemma UnfoldFills(w: World, w': World, r: nat, want: map<nat, Page>)
    ensures Did(w, w', Fills(r, want)) <==> Frame(w, w', r) && DidFill(w, w', r, want)
  {
    UnfoldDidAt(w, w', Fills(r, want), DEPTH);
  }

  lemma UnfoldPrunes(w: World, w': World, r: nat)
    ensures Did(w, w', Prunes(r)) <==> Frame(w, w', r) && DidPrune(w, w', r)
  {
    UnfoldDidAt(w, w', Prunes(r), DEPTH);
  }

  // ---------------------------------------------------------------- growing and mapping

  lemma {:induction false} GrewNothing(w: World, r: nat)
    requires r in w.spaces
    ensures Did(w, w, Grew(r))
  {
    UnfoldGrew(w, w, r);
  }

  lemma {:induction false} GrewTwice(u: World, t: World, w: World, r: nat)
    requires Did(u, t, Grew(r)) && Did(t, w, Grew(r))
    ensures Did(u, w, Grew(r))
  {
    UnfoldGrew(u, t, r);
    UnfoldGrew(t, w, r);
    UnfoldGrew(u, w, r);
  }

  /** What stays when only tables were added. */
  lemma {:induction false} GrewKeeps(w: World, w': World, r: nat)
    requires Did(w, w', Grew(r))
    ensures r in w.spaces && r in w'.spaces && w'.spaces[r].leaf == w.spaces[r].leaf && w'.role.Keys == w.role.Keys
    ensures forall f :: f in w.role && !w.role[f].Free? ==> w'.role[f] == w.role[f]
  {
    UnfoldGrew(w, w', r);
  }

  lemma {:induction false} GrewMid(u: World, t: World, r: nat, i: nat, f: nat)
    requires r in u.spaces && f in u.role && u.role[f].Free?
    requires t.role == u.role[f := Held] && t.mem == u.mem[f := Zeros()] && t.spaces == u.spaces
    requires r in t.mem && i < |t.mem[r]| && r in t.role && t.role[r] == Root(r)
    ensures Did(u, LinkedMid(t, r, i, f), Grew(r))
  {
    UnfoldGrew(u, LinkedMid(t, r, i, f), r);
  }

  lemma {:induction false} GrewLow(u: World, t: World, r: nat, p: nat, f: nat)
    requires r in u.spaces && f in u.role && u.role[f].Free?
    requires t.role == u.role[f := Held] && t.mem == u.mem[f := Zeros()] && t.spaces == u.spaces
    requires p / 512 in t.spaces[r].mid
    requires var g := t.spaces[r].mid[p / 512]; g in t.mem && |t.mem[g]| == 512 && g in t.role && t.role[g].Mid?
    ensures Did(u, LinkedLow(t, r, p, f), Grew(r))
  {
    UnfoldGrew(u, LinkedLow(t, r, p, f), r);
  }

  lemma {:induction false} MapsAfterGrew(u: World, t: World, r: nat, v: nat, f: nat, perm: nat)
    requires Did(u, t, Grew(r)) && perm < 1024 && r in t.spaces && v / 512 in t.spaces[r].low
    requires var g := t.spaces[r].low[v / 512]; g in t.mem && |t.mem[g]| == 512 && g in t.role && t.role[g].Low?
    requires v < TRAPFRAME ==> f in u.role && u.role[f].Held?
    ensures Did(u, Mapped(t, r, v, MakePte(f, perm)), Maps(r, v, 1, f, perm))
  {
    EntryRoundTrip(f, perm);
    UnfoldGrew(u, t, r);
    MapsAfterGrewBody(u, t, r, v, MakePte(f, perm), f, perm);
    UnfoldMaps(u, Mapped(t, r, v, MakePte(f, perm)), r, v, 1, f, perm);
  }

  lemma {:induction false} MapsAfterGrewBody(u: World, t: World, r: nat, v: nat, e: nat, f: nat, perm: nat)
    requires (Frame(u, t, r) && DidGrow(u, t, r)) && perm < 1024 && v / 512 in t.spaces[r].low && e == LeafPte(f, perm)
             && Ppn(e) == f
    requires var g := t.spaces[r].low[v / 512]; g in t.mem && |t.mem[g]| == 512 && g in t.role && t.role[g].Low?
    requires v < TRAPFRAME ==> f in u.role && u.role[f].Held?
    ensures Frame(u, Mapped(t, r, v, e), r) && DidMap(u, Mapped(t, r, v, e), r, v, 1, f, perm)
  {
    MappedFrame(t, r, v, e, f);
    MappedData(u, t, r, v, e);
    GrewMapsRoles(u.role, t.role, Mapped(t, r, v, e).role, r, v, f);
  }

  lemma {:induction false} MappedData(u: World, t: World, r: nat, v: nat, e: nat)
    requires u.role.Keys == t.role.Keys && RolesGrow(u.role, t.role, r) && SameData(u, t)
    requires r in t.spaces && v / 512 in t.spaces[r].low
    requires var g := t.spaces[r].low[v / 512]; g in t.mem && |t.mem[g]| == 512 && g in t.role && t.role[g].Low?
    ensures SameData(u, Mapped(t, r, v, e))
  {
  }

  lemma {:induction false} MappedFrame(t: World, r: nat, v: nat, e: nat, f: nat)
    requires r in t.spaces && v / 512 in t.spaces[r].low && Ppn(e) == f
    requires var g := t.spaces[r].low[v / 512]; g in t.mem && |t.mem[g]| == 512 && g in t.role && t.role[g].Low?
    requires v < TRAPFRAME ==> f in t.role
    ensures var w := Mapped(t, r, v, e);
            && Frame(t, w, r) && (w.role == if v < TRAPFRAME then t.role[f := User(r, v)] else t.role)
            && w.spaces[r].leaf == t.spaces[r].leaf[v := e]
  {
  }

  lemma {:induction false} GrewMapsRoles(
    u: map<nat, Role>, t: map<nat, Role>, w: map<nat, Role>, r: nat, v: nat, f: nat)
    requires u.Keys == t.Keys && RolesGrow(u, t, r) && w == if v < TRAPFRAME then t[f := User(r, v)] else t
    requires v < TRAPFRAME ==> f in u && u[f].Held?
    ensures w.Keys == u.Keys && RolesMap(u, w, r, v, 1, f)
  {
  }

  lemma {:induction false} RangeOneMore(
    u: map<nat, nat>, t: map<nat, nat>, w: map<nat, nat>, v: nat, k: nat, f: nat, perm: nat)
    requires WithRange(t, u, v, k, f, perm) && WithRange(w, t, v + k, 1, f + k, perm)
    ensures WithRange(w, u, v, k + 1, f, perm)
  {
  }

  lemma {:induction false} MapsNothing(u: World, r: nat, v: nat, f: nat, perm: nat)
    requires r in u.spaces
    ensures Did(u, u, Maps(r, v, 0, f, perm))
  {
    UnfoldMaps(u, u, r, v, 0, f, perm);
  }

  lemma {:induction false} MapsOneMore(u: World, t: World, w: World, r: nat, v: nat, k: nat, f: nat, perm: nat)
    requires Did(u, t, Maps(r, v, k, f, perm)) && Did(t, w, Maps(r, v + k, 1, f + k, perm))
    requires forall h :: f <= h <= f + k && h in u.role ==> !u.role[h].Free?
    ensures Did(u, w, Maps(r, v, k + 1, f, perm))
  {
    UnfoldMaps(u, t, r, v, k, f, perm);
    UnfoldMaps(t, w, r, v + k, 1, f + k, perm);
    UnfoldMaps(u, w, r, v, k + 1, f, perm);
    RangeOneMore(u.spaces[r].leaf, t.spaces[r].leaf, w.spaces[r].leaf, v, k, f, perm);
    RolesOneMore(u.role, t.role, w.role, r, v, k, f);
    DataOneMore(u, t, w, r, v, k, f);
  }

  lemma {:induction false} RolesOneMore(
    u: map<nat, Role>, t: map<nat, Role>, w: map<nat, Role>, r: nat, v: nat, k: nat, f: nat)
    requires u.Keys == t.Keys == w.Keys && RolesMap(u, t, r, v, k, f) && RolesMap(t, w, r, v + k, 1, f + k)
    requires forall h :: f <= h <= f + k && h in u ==> !u[h].Free?
    ensures RolesMap(u, w, r, v, k + 1, f)
  {
    forall h | h in u && !u[h].Free? ensures w[h] == RoleOnceMapped(u[h], h, r, v, k + 1, f) {
      assert h in t && t[h] == RoleOnceMapped(u[h], h, r, v, k, f);
    }
  }

  lemma {:induction false} DataOneMore(u: World, t: World, w: World, r: nat, v: nat, k: nat, f: nat)
    requires u.role.Keys == t.role.Keys && RolesMap(u.role, t.role, r, v, k, f) && SameData(u, t) && SameData(t, w)
    ensures SameData(u, w)
  {
    forall h | h in u.role && h in u.mem && (u.role[h].Held? || u.role[h].User?)
      ensures h in w.mem && w.mem[h] == u.mem[h]
    {
      assert t.role[h] == RoleOnceMapped(u.role[h], h, r, v, k, f);
    }
  }

  lemma {:induction false} MapsThenGrew(u: World, t: World, w: World, r: nat, v: nat, k: nat, f: nat, perm: nat)
    requires Did(u, t, Maps(r, v, k, f, perm)) && Did(t, w, Grew(r))
    ensures Did(u, w, Maps(r, v, k, f, perm))
  {
    UnfoldMaps(u, t, r, v, k, f, perm);
    UnfoldGrew(t, w, r);
    MapsGrewRoles(u.role, t.role, w.role, r, v, k, f);
    MapsGrewData(u, t, w, r, v, k, f);
    UnfoldMaps(u, w, r, v, k, f, perm);
  }

  lemma {:induction false} MapsGrewRoles(
    u: map<nat, Role>, t: map<nat, Role>, w: map<nat, Role>, r: nat, v: nat, k: nat, f: nat)
    requires t.Keys == u.Keys && w.Keys == t.Keys && RolesMap(u, t, r, v, k, f) && RolesGrow(t, w, r)
    ensures RolesMap(u, w, r, v, k, f)
  {
  }

  lemma {:induction false} MapsGrewData(u: World, t: World, w: World, r: nat, v: nat, k: nat, f: nat)
    requires t.role.Keys == u.role.Keys && w.role.Keys == t.role.Keys && RolesMap(u.role, t.role, r, v, k, f)
    requires SameData(u, t) && SameData(t, w)
    ensures SameData(u, w)
  {
  }

  /** What the next turn of `mappages`' loop needs. */
  lemma {:induction false} MapsNext(u: World, t: World, r: nat, v: nat, k: nat, n: nat, f: nat, perm: nat)
    requires Did(u, t, Maps(r, v, k, f, perm)) && k < n && r in u.spaces
    requires forall a :: v <= a < v + n ==> a !in u.spaces[r].leaf
    requires forall h :: f <= h < f + n && v + (h - f) < TRAPFRAME ==> h in u.role && u.role[h].Held?
    requires forall h :: f <= h < f + n && h in u.role ==> !u.role[h].Free?
    ensures r in t.spaces && v + k !in t.spaces[r].leaf
    ensures v + k < TRAPFRAME ==> f + k in t.role && t.role[f + k].Held?
    ensures f + k in t.role ==> !t.role[f + k].Free?
  {
    UnfoldMaps(u, t, r, v, k, f, perm);
    assert f <= f + k < f + n;
    assert f + k in u.role ==> t.role[f + k] == RoleOnceMapped(u.role[f + k], f + k, r, v, k, f);
  }

  /** A lowest-level table hangs off a second-level one. */
  lemma {:induction false} NoTable(w: WfWorld, r: nat, v: nat)
    requires r in w.spaces
    ensures v / 512 in w.spaces[r].low ==> v / 512 / 512 in w.spaces[r].mid
  {
    SpaceIn(w, r);
    if v / 512 in w.spaces[r].low {
      LowIn(w.mem, w.role, w.spaces[r], v / 512);
    }
  }

  /** Between the two worlds `k` pages were mapped, at what their tables cost. */
  ghost predicate MappedTo(u: World, w: World, r: nat, v: nat, k: nat, f: nat, perm: nat) {
    Did(u, w, Maps(r, v, k, f, perm)) && Spent(u, w, r, Range(v, k), 0)
  }

  lemma {:induction false} MappedNothing(u: World, r: nat, v: nat, f: nat, perm: nat)
    requires r in u.spaces
    ensures MappedTo(u, u, r, v, 0, f, perm)
  {
    MapsNothing(u, r, v, f, perm);
    SpentNothing(u, r);
  }

  lemma {:induction false} MappedMore(u: WfWorld, t: WfWorld, w: WfWorld, r: nat, v: nat, k: nat, f: nat, perm: nat)
    requires MappedTo(u, t, r, v, k, f, perm) && Did(t, w, Maps(r, v + k, 1, f + k, perm)) && Spent(t, w, r, {v + k}, 0)
    requires forall h :: f <= h <= f + k && h in u.role ==> !u.role[h].Free?
    ensures MappedTo(u, w, r, v, k + 1, f, perm)
  {
    MapsOneMore(u, t, w, r, v, k, f, perm);
    RangeSpent(u, t, w, r, v, k, 0, 0);
  }

  lemma {:induction false} MappedNoMore(
    u: WfWorld, t: WfWorld, w: WfWorld, r: nat, v: nat, k: nat, f: nat, perm: nat, n: nat)
    requires r in u.spaces && r in t.spaces && k < n && MappedTo(u, t, r, v, k, f, perm) && Did(t, w, Grew(r))
    requires |t.free| < Tables(t, r, v + k)
    ensures Did(u, w, Maps(r, v, k, f, perm))
    ensures |u.free| < Missing(u.spaces[r].low.Keys, u.spaces[r].mid.Keys, Range(v, n))
  {
    MapsThenGrew(u, t, w, r, v, k, f, perm);
    RangeTablesRanOut(u, t, r, v, k, n);
  }

  /** How many tables walk has to make on the way to page `v`. */
  ghost function Tables(w: World, r: nat, v: nat): nat
    requires r in w.spaces
  {
    Missing(w.spaces[r].low.Keys, w.spaces[r].mid.Keys, {v})
  }

  /** One free page became the second-level table for `v`, and nothing else. */
  ghost predicate MadeMid(u: World, w: World, r: nat, v: nat) {
    && r in u.spaces && r in w.spaces && |u.free| == |w.free| + 1
    && w.spaces[r].low.Keys == u.spaces[r].low.Keys && w.spaces[r].mid.Keys == u.spaces[r].mid.Keys + {v / 512 / 512}
  }

  ghost predicate MadeLow(u: World, w: World, r: nat, v: nat) {
    && r in u.spaces && r in w.spaces && |u.free| == |w.free| + 1
    && w.spaces[r].mid.Keys == u.spaces[r].mid.Keys && w.spaces[r].low.Keys == u.spaces[r].low.Keys + {v / 512}
  }

  /** What walk has taken from the free list when it gets to `level`. */
  ghost predicate WalkedTo(u: World, w: World, r: nat, v: nat, level: nat) {
    && r in u.spaces && r in w.spaces && (v / 512 in u.spaces[r].low ==> v / 512 / 512 in u.spaces[r].mid)
    && if level == 2 then w == u
       else if level == 1 then
         (if v / 512 / 512 in u.spaces[r].mid then w == u else MadeMid(u, w, r, v))
       else
         && w.spaces[r].low.Keys == u.spaces[r].low.Keys + {v / 512}
         && w.spaces[r].mid.Keys == u.spaces[r].mid.Keys + {v / 512 / 512}
         && |u.free| == |w.free| + (if v / 512 in u.spaces[r].low then 0 else 1)
                        + (if v / 512 / 512 in u.spaces[r].mid then 0 else 1)
  }

  /** A table is made on the way to `level - 1`, unless there is no free page. */
  lemma {:induction false} WalkStep(u: World, t: World, w: World, r: nat, v: nat, level: nat)
    requires 1 <= level <= 2 && WalkedTo(u, t, r, v, level)
    requires if level == 2 then v / 512 / 512 !in t.spaces[r].mid else v / 512 !in t.spaces[r].low
    requires if t.free == [] then w == t else if level == 2 then MadeMid(t, w, r, v) else MadeLow(t, w, r, v)
    requires level == 1 ==> v / 512 / 512 in t.spaces[r].mid
    ensures t.free != [] ==> WalkedTo(u, w, r, v, level - 1)
    ensures t.free == [] ==> |u.free| < Tables(u, r, v)
  {
    MissingOne(u.spaces[r].low.Keys, u.spaces[r].mid.Keys, v);
  }

  lemma {:induction false} WalkEnd(u: World, w: World, r: nat, v: nat)
    requires WalkedTo(u, w, r, v, 0)
    ensures Spent(u, w, r, {v}, 0) && |u.free| >= Tables(u, r, v)
  {
    SpentIs(u, w, r, {v}, 0);
    MissingOne(u.spaces[r].low.Keys, u.spaces[r].mid.Keys, v);
  }

  lemma {:induction false} OnePage(w: World, r: nat, v: nat)
    requires r in w.spaces
    ensures Need(w.spaces[r], {v}) == 1 + Tables(w, r, v)
  {
    assert |{v}| == 1;
  }

  lemma {:induction false} SameTables(u: World, t: World, r: nat, v: nat)
    requires r in u.spaces && t.spaces == u.spaces
    ensures Tables(t, r, v) == Tables(u, r, v)
  {
  }

  /** A page taken from the free list, and then the tables for it. */
  lemma {:induction false} SpentFresh(u: World, t: World, w: World, r: nat, v: nat)
    requires r in u.spaces && t.spaces == u.spaces && |u.free| == |t.free| + 1 && Spent(t, w, r, {v}, 0)
    ensures Spent(u, w, r, {v}, 1)
  {
    SpentIs(t, w, r, {v}, 0);
    SpentIs(u, w, r, {v}, 1);
  }

  /** Storing an entry takes no page. */
  lemma {:induction false} SpentMapped(u: World, t: World, r: nat, v: nat, e: nat)
    requires Spent(u, t, r, {v}, 0) && r in t.spaces && v / 512 in t.spaces[r].low
    requires var g := t.spaces[r].low[v / 512]; g in t.mem && |t.mem[g]| == 512
    ensures Spent(u, Mapped(t, r, v, e), r, {v}, 0)
  {
    SpentIs(u, t, r, {v}, 0);
    SpentIs(u, Mapped(t, r, v, e), r, {v}, 0);
  }

  /** walk finds distinct slots for distinct virtual pages, in one space or in two. */
  lemma {:induction false} SlotsDistinct(w: WfWorld, r: nat, v: nat, q: nat, u: nat)
    requires r in w.spaces && q in w.spaces && v / 512 in w.spaces[r].low && u / 512 in w.spaces[q].low
             && (r != q || v != u)
    ensures (w.spaces[r].low[v / 512], v % 512) != (w.spaces[q].low[u / 512], u % 512)
  {
    ReadLow(w, r, v);
    ReadLow(w, q, u);
    assert v == v / 512 * 512 + v % 512 && u == u / 512 * 512 + u % 512;
  }

  // ---------------------------------------------------------------- unmapping

  lemma {:induction false} UnmapsMore(u: World, t: World, w: World, r: nat, v: nat, n: nat, k: nat)
    requires Did(u, t, Unmaps(r, v, n)) && Did(t, w, Unmaps(r, v + n, k))
    ensures Did(u, w, Unmaps(r, v, n + k))
  {
    UnfoldUnmaps(u, t, r, v, n);
    UnfoldUnmaps(t, w, r, v + n, k);
    UnmapsMoreBody(u, t, w, r, v, n, k);
    UnfoldUnmaps(u, w, r, v, n + k);
  }

  lemma {:induction false} UnmapsMoreRoles(
    u: map<nat, Role>, t: map<nat, Role>, w: map<nat, Role>, r: nat, v: nat, n: nat, k: nat)
    requires t.Keys == u.Keys && w.Keys == t.Keys && RolesUnmap(u, t, r, v, n) && RolesUnmap(t, w, r, v + n, k)
    ensures RolesUnmap(u, w, r, v, n + k)
  {
  }

  lemma {:induction false} UnmapsMoreData(u: World, t: World, w: World, r: nat, v: nat, n: nat, k: nat)
    requires t.role.Keys == u.role.Keys && w.role.Keys == t.role.Keys && SameDataKept(u, t) && SameDataKept(t, w)
    requires RolesUnmap(u.role, t.role, r, v, n) && RolesUnmap(t.role, w.role, r, v + n, k)
    ensures SameDataKept(u, w)
  {
  }

  lemma {:induction false} UnmapsMoreBody(u: World, t: World, w: World, r: nat, v: nat, n: nat, k: nat)
    requires Frame(u, t, r) && DidUnmap(u, t, r, v, n) && Frame(t, w, r) && DidUnmap(t, w, r, v + n, k)
    ensures Frame(u, w, r) && DidUnmap(u, w, r, v, n + k)
  {
    UnmapsMoreRoles(u.role, t.role, w.role, r, v, n, k);
    UnmapsMoreData(u, t, w, r, v, n, k);
  }

  lemma {:induction false} UserIn(w: WfWorld, f: nat)
    requires f in w.role && w.role[f].User?
    ensures w.role[f].r in w.spaces && w.role[f].v in w.spaces[w.role[f].r].leaf && w.role[f].v < TRAPFRAME
    ensures w.role[f].v in w.spaces[w.role[f].r].page && w.spaces[w.role[f].r].page[w.role[f].v] == f
  {
    UnfoldWorld(w);
    assert RoleOk(w, f);
  }

  lemma {:induction false} UnmapsNothing(w: WfWorld, r: nat, v: nat, n: nat)
    requires r in w.spaces && forall u :: v <= u < v + n ==> u !in w.spaces[r].leaf
    ensures Did(w, w, Unmaps(r, v, n))
  {
    forall f | f in w.role && w.role[f].User? && w.role[f].r == r ensures w.role[f].v in w.spaces[r].leaf {
      UserIn(w, f);
    }
    UnfoldUnmaps(w, w, r, v, n);
  }

  /** Clearing the entry of `v` and freeing the page behind it. */
  lemma {:induction false} UnmapsUser(w: WfWorld, r: nat, v: nat, f: nat)
    requires r in w.spaces && v in w.spaces[r].leaf && v < TRAPFRAME && f == Ppn(w.spaces[r].leaf[v])
    ensures v / 512 in w.spaces[r].low && var g := w.spaces[r].low[v / 512]; g in w.mem && |w.mem[g]| == 512 && g != f
    ensures v in w.spaces[r].page && f in w.mem
    ensures WfAt(Released(Unmapped(w, r, v), f), DEPTH) && Did(w, Released(Unmapped(w, r, v), f), Unmaps(r, v, 1))
  {
    UnmappedWf(w, r, v);
    ReadLow(w, r, v);
    ReleasedWf(Unmapped(w, r, v), f);
    forall g | g in w.role && w.role[g] == User(r, v) ensures g == f {
      UserIn(w, g);
    }
    UnfoldUnmaps(w, Released(Unmapped(w, r, v), f), r, v, 1);
  }

  /** Clearing the entry of `v`, one of the two topmost pages. */
  lemma {:induction false} UnmapsTop(w: WfWorld, r: nat, v: nat)
    requires r in w.spaces && v in w.spaces[r].leaf && v >= TRAPFRAME
    ensures v / 512 in w.spaces[r].low && var g := w.spaces[r].low[v / 512]; g in w.mem && |w.mem[g]| == 512
    ensures v in w.spaces[r].page
    ensures WfAt(Unmapped(w, r, v), DEPTH) && Did(w, Unmapped(w, r, v), Unmaps(r, v, 1))
  {
    UnmappedWf(w, r, v);
    ReadLow(w, r, v);
    forall g | g in w.role && w.role[g].User? ensures w.role[g].v < TRAPFRAME {
      UserIn(w, g);
    }
    UnfoldUnmaps(w, Unmapped(w, r, v), r, v, 1);
  }

  /** Both orders of freeing the page and clearing its entry leave the same memory. */
  lemma {:induction false} PokeElsewhere(mem: Memory, f: nat, page: seq<nat>, g: nat, i: nat, x: nat)
    requires g in mem && i < |mem[g]| && f != g
    ensures Poke(mem[f := page], g, i, x) == Poke(mem, g, i, x)[f := page]
  {
    var page': seq<nat> := mem[g][i := x];
    assert mem[f := page][g := page'] == mem[g := page'][f := page];
  }

  lemma {:induction false} NotLeaf(w: WfWorld, r: nat, v: nat)
    requires r in w.spaces && (v / 512 in w.spaces[r].low ==> v !in w.spaces[r].leaf)
    ensures v !in w.spaces[r].leaf
  {
    if v in w.spaces[r].leaf {
      LeafHasTables(w, r, v);
    }
  }

  // ---------------------------------------------------------------- filling

  lemma {:induction false} FillsNothing(w: World, r: nat)
    requires r in w.spaces
    ensures Did(w, w, Fills(r, map[]))
  {
    UnfoldFills(w, w, r, map[]);
  }

  /** A page taken from the allocator, written, and mapped. */
  lemma {:induction false} FillsFresh(u: World, t: World, w: WfWorld, r: nat, v: nat, f: nat, x: Page)
    requires r in u.spaces && v < TRAPFRAME && f in u.role && u.role[f].Free? && v !in u.spaces[r].leaf && x.perm < 1024
    requires t.spaces == u.spaces && t.role == u.role[f := Held] && t.mem == u.mem[f := x.data]
    requires Did(t, w, Maps(r, v, 1, f, x.perm))
    ensures Did(u, w, Fills(r, map[v := x])) && r in w.spaces && v in w.spaces[r].page && w.spaces[r].page[v] == f
  {
    UnfoldMaps(t, w, r, v, 1, f, x.perm);
    FreshFilled(t, w, r, v, f, x);
    FreshLeaves(u.spaces[r].leaf, w.spaces[r].leaf, v, f, x);
    FreshRoles(u.role, t.role, w.role, r, v, f, x);
    FreshData(u, t, w, f, x.data);
    UnfoldFills(u, w, r, map[v := x]);
  }

  lemma {:induction false} FreshFilled(t: World, w: WfWorld, r: nat, v: nat, f: nat, x: Page)
    requires v < TRAPFRAME && f in t.role && t.role[f].Held? && x.perm < 1024 && f in t.mem && t.mem[f] == x.data
    requires Frame(t, w, r) && DidMap(t, w, r, v, 1, f, x.perm)
    ensures Filled1(w, r, v, x) && w.spaces[r].page[v] == f
  {
    EntryRoundTrip(f, x.perm);
    assert w.spaces[r].leaf[v] == LeafPte(f + (v - v), x.perm);
    LeafHasTables(w, r, v);
    assert w.role[f] == RoleOnceMapped(t.role[f], f, r, v, 1, f);
  }

  lemma {:induction false} FreshLeaves(u: map<nat, nat>, w: map<nat, nat>, v: nat, f: nat, x: Page)
    requires v !in u && WithRange(w, u, v, 1, f, x.perm)
    ensures LeavesFill(u, w, map[v := x])
  {
  }

  lemma {:induction false} FreshRoles(
    u: map<nat, Role>, t: map<nat, Role>, w: map<nat, Role>, r: nat, v: nat, f: nat, x: Page)
    requires f in u && u[f].Free? && t == u[f := Held] && w.Keys == t.Keys && RolesMap(t, w, r, v, 1, f)
             && v < TRAPFRAME
    ensures RolesFill(u, w, r, map[v := x])
  {
  }

  lemma {:induction false} FreshData(u: World, t: World, w: World, f: nat, data: seq<nat>)
    requires f in u.role && u.role[f].Free? && t.role == u.role[f := Held] && t.mem == u.mem[f := data]
             && SameData(t, w)
    ensures SameData(u, w)
  {
  }

  /** A page taken from the allocator and given back because no table could be made. */
  lemma {:induction false} FreshReturned(u: World, t: World, w: World, r: nat, f: nat, data: seq<nat>)
    requires r in u.spaces && f in u.role && u.role[f].Free?
    requires t.spaces == u.spaces && t.role == u.role[f := Held] && t.mem == u.mem[f := data]
    requires Did(t, w, Grew(r))
    ensures f in w.role && w.role[f].Held? && Did(u, Released(w, f), Grew(r))
  {
    UnfoldGrew(t, w, r);
    UnfoldGrew(u, Released(w, f), r);
  }

  lemma {:induction false} FillsKeeps(u: World, t: World, r: nat, want: map<nat, Page>, v: nat)
    requires Did(u, t, Fills(r, want)) && r in u.spaces && v !in u.spaces[r].leaf && v !in want
    ensures r in t.spaces && v !in t.spaces[r].leaf
  {
    UnfoldFills(u, t, r, want);
  }

  /** An entry that stays names the same page. */
  lemma {:induction false} FilledStays(t: WfWorld, w: WfWorld, r: nat, v: nat, y: Page)
    requires r in t.spaces && r in w.spaces && Filled1(t, r, v, y) && SameData(t, w)
    requires v in w.spaces[r].leaf && w.spaces[r].leaf[v] == t.spaces[r].leaf[v]
    ensures Filled1(w, r, v, y)
  {
    LeafHasTables(t, r, v);
    LeafHasTables(w, r, v);
  }

  lemma {:induction false} FillsMore(u: World, t: WfWorld, w: WfWorld, r: nat, want: map<nat, Page>, v: nat, x: Page)
    requires Did(u, t, Fills(r, want)) && Did(t, w, Fills(r, map[v := x]))
    ensures Did(u, w, Fills(r, want[v := x]))
  {
    UnfoldFills(u, t, r, want);
    UnfoldFills(t, w, r, map[v := x]);
    FillsMoreBody(u, t, w, r, want, v, x, want[v := x]);
    UnfoldFills(u, w, r, want[v := x]);
  }

  lemma {:induction false} FillsMoreBody(
    u: World, t: WfWorld, w: WfWorld, r: nat, want: map<nat, Page>, v: nat, x: Page, all: map<nat, Page>)
    requires Frame(u, t, r) && DidFill(u, t, r, want) && Frame(t, w, r) && DidFill(t, w, r, map[v := x])
             && all == want[v := x]
    ensures Frame(u, w, r) && DidFill(u, w, r, all)
  {
    forall a | a in all ensures Filled1(w, r, a, all[a]) {
      if a in want {
        assert Filled1(t, r, a, want[a]);
        FilledStays(t, w, r, a, want[a]);
      }
    }
    FillRoles(u.role, t.role, w.role, r, want, v, x);
  }

  lemma {:induction false} FillRoles(
    u: map<nat, Role>, t: map<nat, Role>, w: map<nat, Role>, r: nat, want: map<nat, Page>, v: nat, x: Page)
    requires u.Keys == t.Keys == w.Keys && RolesFill(u, t, r, want) && RolesFill(t, w, r, map[v := x])
    ensures RolesFill(u, w, r, want[v := x])
  {
  }

  lemma {:induction false} FillsThenGrew(u: World, t: WfWorld, w: WfWorld, r: nat, want: map<nat, Page>)
    requires Did(u, t, Fills(r, want)) && Did(t, w, Grew(r))
    ensures Did(u, w, Fills(r, want))
  {
    UnfoldFills(u, t, r, want);
    UnfoldGrew(t, w, r);
    forall a | a in want ensures Filled1(w, r, a, want[a]) {
      FilledStays(t, w, r, a, want[a]);
    }
    FillsGrewRoles(u.role, t.role, w.role, r, want);
    FillsGrewData(u, t, w, r, want);
    UnfoldFills(u, w, r, want);
  }

  lemma {:induction false} FillsGrewRoles(
    u: map<nat, Role>, t: map<nat, Role>, w: map<nat, Role>, r: nat, want: map<nat, Page>)
    requires t.Keys == u.Keys && w.Keys == t.Keys && RolesFill(u, t, r, want) && RolesGrow(t, w, r)
    ensures RolesFill(u, w, r, want)
  {
  }

  lemma {:induction false} FillsGrewData(u: World, t: World, w: World, r: nat, want: map<nat, Page>)
    requires t.role.Keys == u.role.Keys && w.role.Keys == t.role.Keys && RolesFill(u.role, t.role, r, want)
    requires SameData(u, t) && SameData(t, w)
    ensures SameData(u, w)
  {
  }

  /** Undoing a partial fill: all that can remain is tables. */
  lemma {:induction false} FillsThenUnmaps(u: WfWorld, t: World, w: World, r: nat, want: map<nat, Page>, v: nat, n: nat)
    requires Did(u, t, Fills(r, want)) && Did(t, w, Unmaps(r, v, n)) && r in u.spaces
    requires forall a :: a in want ==> v <= a < v + n
    requires forall a :: v <= a < v + n ==> a !in u.spaces[r].leaf
    ensures Did(u, w, Grew(r))
  {
    UnfoldFills(u, t, r, want);
    UnfoldUnmaps(t, w, r, v, n);
    forall f | f in u.role && u.role[f].User? && u.role[f].r == r ensures !(v <= u.role[f].v < v + n) {
      UserIn(u, f);
    }
    UndoneRoles(u.role, t.role, w.role, r, want, v, n);
    UndoneData(u, t, w, r, want, v, n);
    UndoneLeaves(u.spaces[r].leaf, t.spaces[r].leaf, w.spaces[r].leaf, want, v, n);
    UnfoldGrew(u, w, r);
  }

  lemma {:induction false} UndoneLeaves(
    u: map<nat, nat>, t: map<nat, nat>, w: map<nat, nat>, want: map<nat, Page>, v: nat, n: nat)
    requires LeavesFill(u, t, want) && Without(w, t, v, n)
    requires forall a :: a in want ==> v <= a < v + n
    requires forall a :: v <= a < v + n ==> a !in u
    ensures w == u
  {
  }

  lemma {:induction false} UndoneRoles(
    u: map<nat, Role>, t: map<nat, Role>, w: map<nat, Role>, r: nat, want: map<nat, Page>, v: nat, n: nat)
    requires u.Keys == t.Keys == w.Keys && RolesFill(u, t, r, want) && RolesUnmap(t, w, r, v, n)
    requires forall a :: a in want ==> v <= a < v + n
    requires forall f :: f in u && u[f].User? && u[f].r == r ==> !(v <= u[f].v < v + n)
    ensures RolesGrow(u, w, r)
  {
  }

  lemma {:induction false} UndoneData(u: World, t: World, w: World, r: nat, want: map<nat, Page>, v: nat, n: nat)
    requires u.role.Keys == t.role.Keys == w.role.Keys && RolesFill(u.role, t.role, r, want)
             && RolesGrow(u.role, w.role, r)
    requires SameData(u, t) && SameDataKept(t, w)
    ensures SameData(u, w)
  {
    forall f | f in u.role && f in u.mem && (u.role[f].Held? || u.role[f].User?)
      ensures f in w.mem && w.mem[f] == u.mem[f]
    {
      assert t.role[f] == u.role[f] == w.role[f];
    }
  }

  ghost function AllHeld(pages: Memory): (w: WfWorld)
    requires forall f :: f in pages ==> f != 0 && |pages[f]| == 512
    ensures w == World(pages, 0, [], map f | f in pages :: Held, map[])
  {
    var w := World(pages, 0, [], map f | f in pages :: Held, map[]);
    UnfoldWorld(w);
    w
  }

  class Physical {
    var mem: Memory
    var head: nat        // kmem.freelist
    ghost var w: WfWorld

    ghost predicate Ready()
      reads this
    {
      mem == w.mem && head == w.head
    }

    /** Memory as the kernel finds it: nothing on the free list, nothing in use by processes. */
    constructor (pages: Memory)
      requires forall f :: f in pages ==> f != 0 && |pages[f]| == 512
      ensures Ready() && mem == pages && w.free == [] && w.spaces == map[]
      ensures w.role.Keys == pages.Keys && forall f :: f in w.role ==> w.role[f].Held?
    {
      mem, head := pages, 0;
      w := AllHeld(pages);
    }

    /** freerange: every page of the range goes on the free list. */
    method Freerange(lo: nat, hi: nat)
      requires Ready() && forall f :: lo <= f < hi ==> f in w.role && w.role[f].Held?
      modifies this
      ensures Ready() && w.spaces == old(w).spaces && w.role.Keys == old(w).role.Keys
      ensures forall f :: f in w.role ==> w.role[f] == if lo <= f < hi then Free else old(w).role[f]
    {
      var f := lo;
      while f < hi
        invariant lo <= f && Ready() && w.spaces == old(w).spaces && w.role.Keys == old(w).role.Keys
        invariant forall g :: g in w.role ==> w.role[g] == if lo <= g < f && g < hi then Free else old(w).role[g]
      {
        FreeHeld(f);
        f := f + 1;
      }
    }

    /** kalloc: the most recently freed page, or 0 when there is none. */
    method Kalloc() returns (f: nat)
      requires Ready()
      modifies this
      ensures Ready()
      ensures old(w).free == [] ==> f == 0 && w == old(w)
      ensures old(w).free != [] ==>
                f == old(w).free[0] && f != 0 && w == Allocated(old(w)) && f in old(w).role && old(w).role[f] == Free
    {
      EmptyList(w);
      f := head;
      if f != 0 {
        AllocatedWf(w);
        head := mem[f][0] / PGSIZE;
        mem := mem[f := Filled(5)];
        w := Allocated(w);
      }
    }

    /** kfree: fills the page and pushes it on the free list, whatever it was used for. */
    method Kfree(f: nat)
      requires f in mem
      modifies `mem, `head
      ensures mem == old(mem)[f := LinkedPage(old(head))] && head == f
    {
      mem := mem[f := LinkedPage(head)];
      head := f;
    }

    /** kfree of a page the caller holds. */
    method FreeHeld(f: nat)
      requires Ready() && f in w.role && w.role[f].Held?
      modifies this
      ensures Ready() && w == Released(old(w), f)
    {
      ReleasedWf(w, f);
      Kfree(f);
      w := Released(w, f);
    }

    /** kalloc and memset to zero. */
    method KallocZeroed() returns (f: nat)
      requires Ready()
      modifies this
      ensures Ready()
      ensures old(w).free == [] ==> f == 0 && w == old(w)
      ensures old(w).free != [] ==>
                && f == old(w).free[0] && f != 0 && f in old(w).role && old(w).role[f] == Free
                && w == Allocated(old(w)).(mem := old(w).mem[f := Zeros()])
    {
      f := Kalloc();
      if f != 0 {
        HeldWrite(w, f, Zeros());
        mem := mem[f := Zeros()];
        w := w.(mem := w.mem[f := Zeros()]);
      }
    }

    /** `walk` makes a second-level table and stores a pointer to it in the root. */
    method NewMid(r: nat, va: nat) returns (f: nat)
      requires Ready() && r in w.spaces && va < MAXVA && va / PGSIZE / 512 / 512 !in w.spaces[r].mid
      modifies this
      ensures Ready() && r in w.spaces && Did(old(w), w, Grew(r))
      ensures f == 0 <==> old(w).free == []
      ensures f == 0 ==> w == old(w)
      ensures f != 0 ==> va / PGSIZE / 512 / 512 in w.spaces[r].mid && f == w.spaces[r].mid[va / PGSIZE / 512 / 512]
      ensures f != 0 ==> MadeMid(old(w), w, r, va / PGSIZE)
    {
      IndexSplit(va);
      GrewNothing(w, r);
      ReadRoot(w, r, Px(2, va));
      f := KallocZeroed();
      if f != 0 {
        LinkedMidWf(w, r, Px(2, va), f);
        mem := Poke(mem, r, Px(2, va), Pointer(f));
        GrewMid(old(w), w, r, Px(2, va), f);
        w := LinkedMid(w, r, Px(2, va), f);
      }
    }

    /** `walk` makes a lowest-level table and stores a pointer to it in `pt`. */
    method NewLow(r: nat, pt: nat, va: nat) returns (f: nat)
      requires Ready() && r in w.spaces && va < MAXVA && va / PGSIZE / 512 !in w.spaces[r].low
      requires va / PGSIZE / 512 / 512 in w.spaces[r].mid && pt == w.spaces[r].mid[va / PGSIZE / 512 / 512]
      modifies this
      ensures Ready() && r in w.spaces && Did(old(w), w, Grew(r))
      ensures f == 0 <==> old(w).free == []
      ensures f == 0 ==> w == old(w)
      ensures f != 0 ==> va / PGSIZE / 512 in w.spaces[r].low && f == w.spaces[r].low[va / PGSIZE / 512]
      ensures f != 0 ==> MadeLow(old(w), w, r, va / PGSIZE)
    {
      IndexSplit(va);
      GrewNothing(w, r);
      ReadMid(w, r, va / PGSIZE / 512);
      f := KallocZeroed();
      if f != 0 {
        LinkedLowWf(w, r, va / PGSIZE / 512, f);
        mem := Poke(mem, pt, Px(1, va), Pointer(f));
        GrewLow(old(w), w, r, va / PGSIZE / 512, f);
        w := LinkedLow(w, r, va / PGSIZE / 512, f);
      }
    }

    /** Finds the lowest-level table and the slot for `va`, creating tables if asked to. */
    method Walk(r: nat, va: nat, alloc: bool) returns (ok: bool, pt: nat, idx: nat)
      requires Ready() && r in w.spaces && va < MAXVA
      modifies this
      ensures Ready() && r in w.spaces && Did(old(w), w, Grew(r))
      ensures !alloc ==> w == old(w)
      ensures ok ==> va / PGSIZE / 512 in w.spaces[r].low
                     && pt == w.spaces[r].low[va / PGSIZE / 512] && idx == va / PGSIZE % 512
      ensures !alloc ==> (ok <==> va / PGSIZE / 512 in w.spaces[r].low)
      ensures alloc && !ok ==> w.free == []
      ensures alloc ==> (ok <==> |old(w).free| >= Tables(old(w), r, va / PGSIZE))
      ensures alloc && ok ==> Spent(old(w), w, r, {va / PGSIZE}, 0)
    {
      IndexSplit(va);
      GrewNothing(w, r);
      ghost var v := va / PGSIZE;
      NoTable(w, r, v);
      pt := r;
      idx := 0;
      var level := 2;
      while level > 0
        invariant 0 <= level <= 2 && Ready() && r in w.spaces && Did(old(w), w, Grew(r))
        invariant !alloc ==> w == old(w)
        invariant level == 2 ==> pt == r
        invariant level == 1 ==> v / 512 / 512 in w.spaces[r].mid && pt == w.spaces[r].mid[v / 512 / 512]
        invariant level == 0 ==> v / 512 in w.spaces[r].low && pt == w.spaces[r].low[v / 512]
        invariant alloc ==> WalkedTo(old(w), w, r, v, level)
      {
        if level == 2 {
          ReadRoot(w, r, Px(2, va));
        } else {
          ReadMid(w, r, v / 512);
        }
        var pte := mem[pt][Px(level, va)];
        if IsValid(pte) {
          pt := Ppn(pte);
        } else {
          if !alloc {
            NoTable(w, r, v);
            return false, pt, idx;
          }
          ghost var before := w;
          if level == 2 {
            pt := NewMid(r, va);
          } else {
            pt := NewLow(r, pt, va);
          }
          GrewTwice(old(w), before, w, r);
          WalkStep(old(w), before, w, r, v, level);
          if pt == 0 {
            return false, pt, idx;
          }
        }
        level := level - 1;
      }
      WalkEnd(old(w), w, r, v);
      return true, pt, Px(0, va);
    }

    /** One turn of `mappages`' loop. */
    method MapOne(r: nat, v: nat, f: nat, perm: nat) returns (ok: bool)
      requires Ready() && r in w.spaces && v < PAGES && v !in w.spaces[r].leaf && perm < 1024 && perm / 2 % 8 != 0
      requires v < TRAPFRAME ==> f in w.role && w.role[f].Held?
      requires f in w.role ==> !w.role[f].Free?
      modifies this
      ensures Ready()
      ensures r in w.spaces && (ok ==> Did(old(w), w, Maps(r, v, 1, f, perm)))
      ensures !ok ==> Did(old(w), w, Grew(r)) && w.free == []
      ensures ok <==> |old(w).free| >= Tables(old(w), r, v)
      ensures ok ==> Spent(old(w), w, r, {v}, 0)
    {
      var pt, idx;
      ok, pt, idx := Walk(r, v * PGSIZE, true);
      if ok {
        GrewKeeps(old(w), w, r);
        ReadLow(w, r, v);
        assert !IsValid(mem[pt][idx]); // panic("mappages: remap")
        MapsAfterGrew(old(w), w, r, v, f, perm);
        SpentMapped(old(w), w, r, v, MakePte(f, perm));
        Enter(r, v, f, perm, pt, idx);
      }
    }

    /** The entry is written. */
    method Enter(r: nat, v: nat, f: nat, perm: nat, pt: nat, idx: nat)
      requires Ready() && r in w.spaces && v < PAGES && v !in w.spaces[r].leaf && perm < 1024 && perm / 2 % 8 != 0
      requires v / 512 in w.spaces[r].low && pt == w.spaces[r].low[v / 512] && idx == v % 512
      requires pt in w.mem && |w.mem[pt]| == 512
      requires v < TRAPFRAME ==> f in w.role && w.role[f].Held?
      requires f in w.role ==> !w.role[f].Free?
      modifies this
      ensures Ready() && w == Mapped(old(w), r, v, MakePte(f, perm)) && r in w.spaces
    {
      EntryRoundTrip(f, perm);
      var pte := MakePte(f, perm);
      MappedWf(w, r, v, pte);
      mem := Poke(mem, pt, idx, pte);
      w := Mapped(w, r, v, pte);
    }

    /** mappages: on success exactly the pages v .. v + n - 1 became mapped; when memory
        runs out, exactly a prefix of them did. */
    method Mappages(r: nat, v: nat, n: nat, f: nat, perm: nat) returns (ok: bool, ghost k: nat)
      requires Ready() && r in w.spaces && 1 <= n && v + n <= PAGES && perm < 1024 && perm / 2 % 8 != 0
      requires forall u :: v <= u < v + n ==> u !in w.spaces[r].leaf
      requires forall h :: f <= h < f + n && v + (h - f) < TRAPFRAME ==> h in w.role && w.role[h].Held?
      requires forall h :: f <= h < f + n && h in w.role ==> !w.role[h].Free?
      modifies this
      ensures Ready() && r in w.spaces && k <= n && Did(old(w), w, Maps(r, v, k, f, perm))
      ensures ok <==> k == n
      ensures !ok ==> w.free == []
      ensures ok <==> |old(w).free| >= Missing(old(w).spaces[r].low.Keys, old(w).spaces[r].mid.Keys, Range(v, n))
      ensures ok ==> Spent(old(w), w, r, Range(v, n), 0)
    {
      k := 0;
      var a := 0;
      ghost var u := w;
      MappedNothing(w, r, v, f, perm);
      while a < n
        invariant k == a <= n && Ready() && r in w.spaces && MappedTo(u, w, r, v, k, f, perm)
      {
        ghost var t := w;
        MapsNext(u, t, r, v, k, n, f, perm);
        ok := MapOne(r, v + a, f + a, perm);
        if !ok {
          MappedNoMore(u, t, w, r, v, k, f, perm, n);
          return;
        }
        MappedMore(u, t, w, r, v, k, f, perm);
        k := k + 1;
        a := a + 1;
      }
      SpentEnough(u, w, r, Range(v, n), 0);
      ok := true;
    }

    /** One turn of `uvmunmap`'s loop. The page is freed before its entry is cleared. */
    method UnmapOne(r: nat, v: nat, doFree: bool)
      requires Ready() && r in w.spaces && v < PAGES && (doFree <==> v < TRAPFRAME)
      modifies this
      ensures Ready() && r in w.spaces && Did(old(w), w, Unmaps(r, v, 1))
    {
      var ok, pt, idx := Walk(r, v * PGSIZE, false);
      if ok {
        ReadLow(w, r, v);
        var pte := mem[pt][idx];
        if IsValid(pte) {
          if doFree {
            UnmapsUser(w, r, v, Ppn(pte));
            PokeElsewhere(mem, Ppn(pte), LinkedPage(head), pt, idx, 0);
            Kfree(Ppn(pte));
            w := Released(Unmapped(w, r, v), Ppn(pte));
          } else {
            UnmapsTop(w, r, v);
            w := Unmapped(w, r, v);
          }
          mem := Poke(mem, pt, idx, 0);
          return;
        }
      }
      NotLeaf(w, r, v);
      UnmapsNothing(w, r, v, 1);
    }

    /** uvmunmap: exactly the translations of its range go away. */
    method Uvmunmap(r: nat, v: nat, n: nat, doFree: bool)
      requires Ready() && r in w.spaces && v + n <= PAGES
      requires if doFree then v + n <= TRAPFRAME else v >= TRAPFRAME
      modifies this
      ensures Ready() && r in w.spaces && Did(old(w), w, Unmaps(r, v, n))
    {
      var a := 0;
      ghost var u := w;
      UnmapsNothing(w, r, v, 0);
      while a < n
        invariant a <= n && Ready() && r in w.spaces && Did(u, w, Unmaps(r, v, a))
      {
        ghost var t := w;
        UnmapOne(r, v + a, doFree);
        UnmapsMore(u, t, w, r, v, a, 1);
        a := a + 1;
      }
    }

    /** The pattern shared by `uvmalloc`, `uvmcopy` and `vmfault`: allocate a page, write it,
        map it, and free it again if it cannot be mapped. */
    method AddPage(r: nat, v: nat, perm: nat, data: seq<nat>) returns (f: nat)
      requires Ready() && r in w.spaces && v < TRAPFRAME && v !in w.spaces[r].leaf && perm < 1024 && perm / 2 % 8 != 0
      requires |data| == 512
      modifies this
      ensures Ready() && r in w.spaces
      ensures f != 0 ==>
                Did(old(w), w, Fills(r, map[v := Page(perm, data)])) && v in w.spaces[r].page
                && f == w.spaces[r].page[v]
      ensures f == 0 ==> Did(old(w), w, Grew(r))
      ensures f != 0 <==> |old(w).free| >= Need(old(w).spaces[r], {v})
      ensures f != 0 ==> Spent(old(w), w, r, {v}, 1)
    {
      ghost var u := w;
      GrewNothing(w, r);
      OnePage(w, r, v);
      f := Kalloc();
      if f != 0 {
        HeldWrite(w, f, data);
        mem := mem[f := data];
        w := w.(mem := w.mem[f := data]);
        ghost var t := w;
        SameTables(u, t, r, v);
        var ok := MapOne(r, v, f, perm);
        if ok {
          FillsFresh(u, t, w, r, v, f, Page(perm, data));
          SpentFresh(u, t, w, r, v);
        } else {
          FreshReturned(u, t, w, r, f, data);
          FreeHeld(f);
          f := 0;
        }
      }
    }
  }
}
