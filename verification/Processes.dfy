/** The memory of processes over whole runs: fork, sbrk, page faults and exit
    (kernel/proc.c, kernel/sysproc.c), with every out-of-memory path. */
module Processes {
  import opened PageTable
  import opened Vm
  import opened UserMemory
  import opened PageBudget

  /** The fields of struct proc that concern memory. */
  datatype Proc = Proc(root: nat, sz: nat, frame: nat)

  /** The process table, and who owns each address space and each trapframe page. `kept`
      are the pages the rest of the kernel has allocated; `tramp` is the trampoline page. */
  datatype Ledger = Ledger(procs: map<nat, Proc>, own: map<nat, nat>, frameOf: map<nat, nat>, kept: set<nat>,
                           tramp: nat)

  /** User pages lie below the process's size, rounded up. */
  ghost predicate LeavesBelow(leaf: map<nat, nat>, n: nat) {
    forall v :: v in leaf ==> v < n || v == TRAMPOLINE || v == TRAPFRAME
  }

  ghost predicate TopOk(leaf: map<nat, nat>, tramp: nat, frame: nat) {
    && TRAMPOLINE in leaf && leaf[TRAMPOLINE] == LeafPte(tramp, PTE_R + PTE_X)
    && TRAPFRAME in leaf && leaf[TRAPFRAME] == LeafPte(frame, PTE_R + PTE_W)
  }

  ghost predicate ProcOk(w: World, p: Proc, tramp: nat) {
    && p.root in w.spaces && p.sz <= MAXSZ
    && LeavesBelow(w.spaces[p.root].leaf, Up(p.sz)) && TopOk(w.spaces[p.root].leaf, tramp, p.frame)
  }

  ghost predicate OwnersOk(w: World, t: Ledger) {
    && w.spaces.Keys == t.own.Keys
    && (forall r :: r in t.own ==> t.own[r] in t.procs && t.procs[t.own[r]].root == r)
    && (forall p :: p in t.procs ==> t.procs[p].root in t.own && t.own[t.procs[p].root] == p)
  }

  /** The held pages are exactly the trapframes and what the rest of the kernel keeps. */
  ghost predicate FramesOk(w: World, t: Ledger) {
    && (forall f :: f in w.role && w.role[f].Held? <==> f in t.kept || f in t.frameOf)
    && (forall f :: f in t.frameOf ==> f !in t.kept && t.frameOf[f] in t.procs && t.procs[t.frameOf[f]].frame == f)
    && (forall p :: p in t.procs ==> t.procs[p].frame in t.frameOf && t.frameOf[t.procs[p].frame] == p)
  }

  ghost predicate BooksBody(w: World, t: Ledger) {
    && (forall p :: p in t.procs ==> ProcOk(w, t.procs[p], t.tramp))
    && OwnersOk(w, t) && FramesOk(w, t) && t.tramp !in w.role
  }

  ghost predicate BooksAt(w: World, t: Ledger, depth: nat) {
    if depth == 0 then BooksBody(w, t) else BooksAt(w, t, depth - 1)
  }

  /** `BooksBody`, kept folded. */
  ghost predicate Books(w: World, t: Ledger) {
    BooksAt(w, t, DEPTH)
  }

  lemma {:induction false} UnfoldBooksAt(w: World, t: Ledger, depth: nat)
    ensures BooksAt(w, t, depth) <==> BooksBody(w, t)
  {
    if depth > 0 {
      UnfoldBooksAt(w, t, depth - 1);
    }
  }

  lemma UnfoldBooks(w: World, t: Ledger)
    ensures Books(w, t) <==> BooksBody(w, t)
  {
    UnfoldBooksAt(w, t, DEPTH);
  }

  // ---------------------------------------------------------------- what processes see

  /** Every user page of space `o`, its flags and its contents, is as it was. */
  ghost predicate SameView(w: World, w': World, o: nat) {
    && o in w.spaces && o in w'.spaces
    && (forall v :: v < TRAPFRAME ==> (v in w'.spaces[o].leaf <==> v in w.spaces[o].leaf))
    && (forall v :: v < TRAPFRAME && v in w.spaces[o].leaf ==> PageOf(w', o, v) == PageOf(w, o, v))
  }

  lemma {:induction false} ViewKept(w: WfWorld, w': WfWorld, o: nat)
    requires o in w.spaces && o in w'.spaces && w'.spaces[o] == w.spaces[o] && w'.role.Keys == w.role.Keys
    requires forall f :: f in w.role && w.role[f].User? && w.role[f].r == o && f in w.mem ==>
               f in w'.mem && w'.mem[f] == w.mem[f]
    ensures SameView(w, w', o)
  {
    forall v | v < TRAPFRAME && v in w.spaces[o].leaf ensures PageOf(w', o, v) == PageOf(w, o, v) {
      LeafHasTables(w, o, v);
      PageThere(w, w.spaces[o].page[v]);
    }
  }

  /** Whatever is done to one address space, the pages of every other are as they were. */
  lemma {:induction false} OthersKept(w: WfWorld, w': WfWorld, c: Change, o: nat)
    requires Did(w, w', c) && !c.Maps? && o in w.spaces && o != c.r
    ensures SameView(w, w', o)
  {
    match c {
      case Grew(r) => UnfoldGrew(w, w', r);
      case Unmaps(r, v, n) => UnfoldUnmaps(w, w', r, v, n);
      case Fills(r, want) => UnfoldFills(w, w', r, want);
      case Prunes(r) => UnfoldPrunes(w, w', r);
    }
    ViewKept(w, w', o);
  }

  // ---------------------------------------------------------------- one process changes

  /** The books after process `p` got size `sz`. */
  ghost function Resized(t: Ledger, p: nat, sz: nat): Ledger
    requires p in t.procs
  {
    t.(procs := t.procs[p := t.procs[p].(sz := sz)])
  }

  /** Held pages stay held, and no page becomes held. */
  ghost predicate SameHeld(w: World, w': World) {
    w'.role.Keys == w.role.Keys && forall f :: f in w.role ==> (w'.role[f].Held? <==> w.role[f].Held?)
  }

  lemma {:induction false} ChangeFrame(w: World, w': World, c: Change)
    requires Did(w, w', c) && !c.Maps?
    ensures Frame(w, w', c.r) && SameHeld(w, w')
  {
    match c
    case Grew(r) => UnfoldGrew(w, w', r);
    case Unmaps(r, v, n) => UnfoldUnmaps(w, w', r, v, n);
    case Fills(r, want) => UnfoldFills(w, w', r, want);
    case Prunes(r) => UnfoldPrunes(w, w', r);
  }

  lemma {:induction false} BooksResized(w: World, w': World, t: Ledger, p: nat, sz: nat)
    requires BooksBody(w, t) && p in t.procs && SameHeld(w, w') && Frame(w, w', t.procs[p].root) && sz <= MAXSZ
    requires var leaf := w'.spaces[t.procs[p].root].leaf;
             LeavesBelow(leaf, Up(sz)) && TopOk(leaf, t.tramp, t.procs[p].frame)
    ensures BooksBody(w', Resized(t, p, sz))
  {
    var t' := Resized(t, p, sz);
    FrameKeys(w, w', t.procs[p].root);
    ResizedOwners(t, p, sz);
    OwnersResized(w, w', t, t');
    FramesResized(w, w', t, t');
    forall q | q in t'.procs ensures ProcOk(w', t'.procs[q], t'.tramp) {
      if q != p {
        assert t.own[t.procs[q].root] == q && t.own[t.procs[p].root] == p;
        OtherProcOk(w, w', t.procs[q], t.tramp, t.procs[p].root);
      }
    }
  }

  lemma {:induction false} ResizedOwners(t: Ledger, p: nat, sz: nat)
    requires p in t.procs
    ensures SameOwners(t, Resized(t, p, sz))
  {
  }

  lemma {:induction false} FrameKeys(w: World, w': World, r: nat)
    requires Frame(w, w', r)
    ensures w'.spaces.Keys == w.spaces.Keys
  {
  }

  lemma {:induction false} OtherProcOk(w: World, w': World, x: Proc, tramp: nat, r: nat)
    requires ProcOk(w, x, tramp) && x.root != r && SameOthers(w, w', r)
    ensures ProcOk(w', x, tramp)
  {
  }

  /** The same processes, with the same spaces and trapframes. */
  ghost predicate SameOwners(t: Ledger, t': Ledger) {
    && t'.own == t.own && t'.frameOf == t.frameOf && t'.kept == t.kept
    && (forall q :: q in t'.procs <==> q in t.procs)
    && (forall q :: q in t.procs ==> t'.procs[q].root == t.procs[q].root && t'.procs[q].frame == t.procs[q].frame)
  }

  lemma {:induction false} OwnersResized(w: World, w': World, t: Ledger, t': Ledger)
    requires OwnersOk(w, t) && SameOwners(t, t') && w'.spaces.Keys == w.spaces.Keys
    ensures OwnersOk(w', t')
  {
  }

  lemma {:induction false} FramesResized(w: World, w': World, t: Ledger, t': Ledger)
    requires FramesOk(w, t) && SameOwners(t, t') && SameHeld(w, w')
    ensures FramesOk(w', t')
  {
  }

  /** A change to the address space of `p` keeps the books if its leaves fit the new size. */
  lemma {:induction false} BooksAfter(w: World, w': World, t: Ledger, p: nat, sz: nat, c: Change)
    requires Books(w, t) && p in t.procs && Did(w, w', c) && !c.Maps? && c.r == t.procs[p].root && sz <= MAXSZ
    requires c.r in w'.spaces && LeavesBelow(w'.spaces[c.r].leaf, Up(sz))
             && TopOk(w'.spaces[c.r].leaf, t.tramp, t.procs[p].frame)
    ensures Books(w', Resized(t, p, sz)) && w'.role.Keys == w.role.Keys
  {
    UnfoldBooks(w, t);
    ChangeFrame(w, w', c);
    BooksResized(w, w', t, p, sz);
    UnfoldBooks(w', Resized(t, p, sz));
  }

  lemma {:induction false} BooksOf(w: World, t: Ledger, p: nat)
    requires Books(w, t) && p in t.procs
    ensures ProcOk(w, t.procs[p], t.tramp)
  {
    UnfoldBooks(w, t);
  }

  lemma {:induction false} LeavesGrew(w: World, w': World, r: nat)
    requires Did(w, w', Grew(r))
    ensures r in w.spaces && r in w'.spaces && w'.spaces[r].leaf == w.spaces[r].leaf
  {
    UnfoldGrew(w, w', r);
  }

  lemma {:induction false} LeavesUnmapped(w: World, w': World, r: nat, n: nat, n': nat, tramp: nat, frame: nat)
    requires n' <= n <= TRAPFRAME && Did(w, w', Unmaps(r, n', n - n')) && r in w.spaces
    requires LeavesBelow(w.spaces[r].leaf, n) && TopOk(w.spaces[r].leaf, tramp, frame)
    ensures r in w'.spaces && LeavesBelow(w'.spaces[r].leaf, n') && TopOk(w'.spaces[r].leaf, tramp, frame)
  {
    UnfoldUnmaps(w, w', r, n', n - n');
  }

  lemma {:induction false} LeavesFilled(
    w: World, w': World, r: nat, want: map<nat, Page>, n: nat, n': nat, tramp: nat, frame: nat)
    requires Did(w, w', Fills(r, want)) && n <= n' && r in w.spaces && forall v :: v in want ==> v < n'
    requires LeavesBelow(w.spaces[r].leaf, n) && TopOk(w.spaces[r].leaf, tramp, frame)
    ensures r in w'.spaces && LeavesBelow(w'.spaces[r].leaf, n') && TopOk(w'.spaces[r].leaf, tramp, frame)
  {
    UnfoldFills(w, w', r, want);
  }

  // ---------------------------------------------------------------- processes come and go

  ghost function Joined(t: Ledger, p: nat, x: Proc): Ledger {
    t.(procs := t.procs[p := x], own := t.own[x.root := p], frameOf := t.frameOf[x.frame := p])
  }

  ghost function Departed(t: Ledger, p: nat): Ledger
    requires p in t.procs
  {
    t.(procs := t.procs - {p}, own := t.own - {t.procs[p].root}, frameOf := t.frameOf - {t.procs[p].frame})
  }

  lemma {:induction false} FramesJoined(u: World, w: World, t: Ledger, p: nat, x: Proc)
    requires FramesOk(u, t) && p !in t.procs && w.role.Keys == u.role.Keys && x.frame in u.role
             && !u.role[x.frame].Held?
    requires forall f :: f in u.role ==> (w.role[f].Held? <==> u.role[f].Held? || f == x.frame)
    ensures FramesOk(w, Joined(t, p, x))
  {
  }

  lemma {:induction false} OneMoreSpace(u: World, w: World, r: nat)
    requires r !in u.spaces && r in w.spaces && SameOthers(u, w, r)
    ensures w.spaces.Keys == u.spaces.Keys + {r}
  {
  }

  lemma {:induction false} OwnersJoined(u: World, w: World, t: Ledger, p: nat, x: Proc)
    requires OwnersOk(u, t) && p !in t.procs && x.root !in u.spaces && w.spaces.Keys == u.spaces.Keys + {x.root}
    ensures OwnersOk(w, Joined(t, p, x))
  {
  }

  lemma {:induction false} BooksJoined(u: World, w: World, t: Ledger, p: nat, x: Proc)
    requires Books(u, t) && p !in t.procs && ProcOk(w, x, t.tramp) && x.root !in u.spaces && SameOthers(u, w, x.root)
    requires w.role.Keys == u.role.Keys && x.frame in u.role && !u.role[x.frame].Held?
    requires forall f :: f in u.role ==> (w.role[f].Held? <==> u.role[f].Held? || f == x.frame)
    ensures Books(w, Joined(t, p, x))
  {
    UnfoldBooks(u, t);
    FramesJoined(u, w, t, p, x);
    OneMoreSpace(u, w, x.root);
    OwnersJoined(u, w, t, p, x);
    var t' := Joined(t, p, x);
    forall q | q in t'.procs ensures ProcOk(w, t'.procs[q], t'.tramp) {
      if q != p {
        OtherProcOk(u, w, t.procs[q], t.tramp, x.root);
      }
    }
    UnfoldBooks(w, t');
  }

  lemma {:induction false} FramesDeparted(u: World, w: World, t: Ledger, p: nat)
    requires FramesOk(u, t) && p in t.procs && w.role.Keys == u.role.Keys
    requires forall f :: f in u.role ==> (w.role[f].Held? <==> u.role[f].Held? && f != t.procs[p].frame)
    ensures FramesOk(w, Departed(t, p))
  {
  }

  lemma {:induction false} OwnersDeparted(u: World, w: World, t: Ledger, p: nat)
    requires OwnersOk(u, t) && p in t.procs && SameOthers(u, w, t.procs[p].root) && t.procs[p].root !in w.spaces
    ensures OwnersOk(w, Departed(t, p))
  {
    assert w.spaces.Keys == u.spaces.Keys - {t.procs[p].root};
  }

  lemma {:induction false} BooksDeparted(u: World, w: World, t: Ledger, p: nat)
    requires Books(u, t) && p in t.procs && SameOthers(u, w, t.procs[p].root) && t.procs[p].root !in w.spaces
    requires w.role.Keys == u.role.Keys
    requires forall f :: f in u.role ==> (w.role[f].Held? <==> u.role[f].Held? && f != t.procs[p].frame)
    ensures Books(w, Departed(t, p))
  {
    UnfoldBooks(u, t);
    FramesDeparted(u, w, t, p);
    OwnersDeparted(u, w, t, p);
    var t' := Departed(t, p);
    forall q | q in t'.procs ensures ProcOk(w, t'.procs[q], t'.tramp) {
      assert t.own[t.procs[q].root] == q && t.own[t.procs[p].root] == p;
      OtherProcOk(u, w, t.procs[q], t.tramp, t.procs[p].root);
    }
    UnfoldBooks(w, t');
  }

  lemma {:induction false} BooksRestored(u: World, w: World, t: Ledger)
    requires Books(u, t) && Restored(u, w)
    ensures Books(w, t)
  {
    UnfoldBooks(u, t);
    forall q | q in t.procs ensures ProcOk(w, t.procs[q], t.tramp) {
      assert ProcOk(u, t.procs[q], t.tramp);
    }
    UnfoldBooks(w, t);
  }

  lemma {:induction false} ViewRestored(u: WfWorld, w: WfWorld, o: nat)
    requires Restored(u, w) && o in u.spaces
    ensures SameView(u, w, o)
  {
    ViewKept(u, w, o);
  }

  /** A trapframe page and a page table, and nothing else, were taken from the free pages. */
  ghost predicate Started(u: World, w: World, r: nat, frame: nat) {
    u.free != [] && frame == u.free[0] && frame in u.role && u.role[frame].Free? && Added(Allocated(u), w, r)
  }

  lemma {:induction false} StartUndone(u: World, c: World, w: World, r: nat, frame: nat)
    requires Started(u, c, r, frame) && Gone(Released(c, frame), w, r)
    ensures Restored(u, w)
  {
    assert w.role.Keys == u.role.Keys;
    forall f | f in u.role ensures w.role[f] == u.role[f] {
      assert f in c.role;
    }
    assert w.spaces.Keys == u.spaces.Keys;
  }

  lemma {:induction false} FrameUndone(u: World, c: World, frame: nat)
    requires u.free != [] && frame == u.free[0] && frame in u.role && u.role[frame].Free? && Restored(Allocated(u), c)
    ensures frame in c.role && c.role[frame].Held? && Restored(u, Released(c, frame))
  {
  }

  lemma {:induction false} ForkNeed(u: World, b: World, r: nat, frame: nat, o: nat, n: nat)
    requires Started(u, b, r, frame) && o in u.spaces && o != r && TopTables(b.spaces[r])
    ensures o in b.spaces && Have(b, o, n) == Have(u, o, n)
            && Need(b.spaces[r], Have(b, o, n)) == ChildNeed(Have(u, o, n))
  {
    HaveSame(u, b, o, n);
  }

  lemma {:induction false} ViewStarted(u: WfWorld, w: WfWorld, r: nat, frame: nat, o: nat)
    requires Started(u, w, r, frame) && o in u.spaces
    ensures SameView(u, w, o) && o != r
  {
    ViewKept(u, w, o);
  }

  // ---------------------------------------------------------------- the operations

  /** The child has every page of the parent, with the same flags and contents, and no
      other user page. */
  ghost predicate Forked(u: World, w: World, o: nat, r: nat) {
    && o in u.spaces && r in w.spaces
    && (forall v :: v < TRAPFRAME ==> (v in w.spaces[r].leaf <==> v in u.spaces[o].leaf))
    && (forall v :: v < TRAPFRAME && v in u.spaces[o].leaf ==> PageOf(w, r, v) == PageOf(u, o, v))
  }

  /** Are there the addresses and the free pages to grow by `n` bytes? */
  ghost predicate CanGrow(w: World, r: nat, sz: nat, n: nat)
    requires r in w.spaces
  {
    sz + n <= MAXSZ && |w.free| >= Need(w.spaces[r], Range(Up(sz), Gap(sz, sz + n)))
  }

  /** What growing by `n` bytes does to address space `r`. It fails exactly when it must. A
      negative `n` larger than the size wraps around in 64 bits, and then nothing changes. */
  ghost predicate GrowSpec(w: World, w': World, r: nat, sz: nat, n: int, sz': nat, ok: bool) {
    && (n > 0 ==> r in w.spaces && (ok <==> CanGrow(w, r, sz, n)))
    && if n > 0 && ok then
         sz + n <= MAXSZ && sz' == sz + n
         && Did(w, w', Fills(r, ZeroPages(Up(sz), Gap(sz, sz'), PTE_R + PTE_U + PTE_W)))
       else if n > 0 then
         sz' == sz && if sz + n > MAXSZ then w' == w else Did(w, w', Grew(r))
       else if n == 0 || sz + n < 0 then
         ok && sz' == sz && w' == w
       else
         ok && sz' == sz + n && Did(w, w', Unmaps(r, Up(sz'), Gap(sz', sz)))
  }

  lemma {:induction false} BooksLarger(w: World, w': World, t: Ledger, p: nat, sz': nat)
    requires Books(w, t) && p in t.procs && t.procs[p].sz <= sz' <= MAXSZ
    requires var x := t.procs[p]; Did(w, w', Fills(x.root, ZeroPages(Up(x.sz), Gap(x.sz, sz'), PTE_R + PTE_U + PTE_W)))
    ensures Books(w', Resized(t, p, sz')) && w'.role.Keys == w.role.Keys
  {
    BooksOf(w, t, p);
    var x := t.procs[p];
    var want := ZeroPages(Up(x.sz), Gap(x.sz, sz'), PTE_R + PTE_U + PTE_W);
    UpMonotone(x.sz, sz');
    LeavesFilled(w, w', x.root, want, Up(x.sz), Up(sz'), t.tramp, x.frame);
    BooksAfter(w, w', t, p, sz', Fills(x.root, want));
  }

  lemma {:induction false} BooksGrown(w: World, w': World, t: Ledger, p: nat, n: int, sz': nat, ok: bool)
    requires Books(w, t) && p in t.procs && GrowSpec(w, w', t.procs[p].root, t.procs[p].sz, n, sz', ok)
    ensures Books(w', Resized(t, p, sz')) && w'.role.Keys == w.role.Keys
  {
    BooksOf(w, t, p);
    var x := t.procs[p];
    if n > 0 && ok {
      BooksLarger(w, w', t, p, sz');
    } else if n > 0 && x.sz + n <= MAXSZ {
      LeavesGrew(w, w', x.root);
      BooksAfter(w, w', t, p, sz', Grew(x.root));
    } else if n < 0 && x.sz + n >= 0 {
      UpMonotone(sz', x.sz);
      LeavesUnmapped(w, w', x.root, Up(x.sz), Up(sz'), t.tramp, x.frame);
      BooksAfter(w, w', t, p, sz', Unmaps(x.root, Up(sz'), Gap(sz', x.sz)));
    } else {
      assert Resized(t, p, x.sz) == t;
    }
  }

  /** What is done to the address space of process `p` is not seen by the others. */
  lemma {:induction false} Isolated(w: WfWorld, w': WfWorld, t: Ledger, p: nat, c: Change)
    requires Books(w, t) && p in t.procs && Did(w, w', c) && !c.Maps? && c.r == t.procs[p].root
    ensures OthersSee(w, w', t.procs, p)
  {
    forall q | q in t.procs && q != p ensures SameView(w, w', t.procs[q].root) {
      OtherRoot(w, t, p, q);
      OthersKept(w, w', c, t.procs[q].root);
    }
  }

  lemma {:induction false} NothingDone(w: WfWorld, t: Ledger, p: nat)
    requires Books(w, t)
    ensures OthersSee(w, w, t.procs, p)
  {
    forall q | q in t.procs && q != p ensures SameView(w, w, t.procs[q].root) {
      BooksOf(w, t, q);
      ViewKept(w, w, t.procs[q].root);
    }
  }

  /** Every process but `p` sees what it saw. */
  ghost predicate OthersSee(w: World, w': World, procs: map<nat, Proc>, p: nat) {
    forall q :: q in procs && q != p ==> SameView(w, w', procs[q].root)
  }

  /** Every process sees what it saw. */
  ghost predicate AllSee(w: World, w': World, procs: map<nat, Proc>) {
    forall q :: q in procs ==> SameView(w, w', procs[q].root)
  }

  lemma {:induction false} AllSeeRestored(u: WfWorld, w: WfWorld, t: Ledger)
    requires Books(u, t) && Restored(u, w)
    ensures AllSee(u, w, t.procs)
  {
    forall q | q in t.procs ensures SameView(u, w, t.procs[q].root) {
      BooksOf(u, t, q);
      ViewRestored(u, w, t.procs[q].root);
    }
  }

  lemma {:induction false} AllSeeStarted(u: WfWorld, w: WfWorld, t: Ledger, r: nat, frame: nat)
    requires Books(u, t) && Started(u, w, r, frame)
    ensures AllSee(u, w, t.procs)
  {
    forall q | q in t.procs ensures SameView(u, w, t.procs[q].root) {
      BooksOf(u, t, q);
      ViewStarted(u, w, r, frame, t.procs[q].root);
    }
  }

  lemma {:induction false} GrowIsolated(w: WfWorld, w': WfWorld, t: Ledger, p: nat, n: int, sz': nat, ok: bool)
    requires Books(w, t) && p in t.procs && GrowSpec(w, w', t.procs[p].root, t.procs[p].sz, n, sz', ok)
    ensures OthersSee(w, w', t.procs, p)
  {
    var x := t.procs[p];
    if n > 0 && ok {
      Isolated(w, w', t, p, Fills(x.root, ZeroPages(Up(x.sz), Gap(x.sz, sz'), PTE_R + PTE_U + PTE_W)));
    } else if n > 0 && x.sz + n <= MAXSZ {
      Isolated(w, w', t, p, Grew(x.root));
    } else if n < 0 && x.sz + n >= 0 {
      Isolated(w, w', t, p, Unmaps(x.root, Up(sz'), Gap(sz', x.sz)));
    } else {
      NothingDone(w, t, p);
    }
  }

  datatype Op =
    | InitOp(p: nat)
    | ForkOp(p: nat, c: nat)
    | SbrkOp(p: nat, n: int, eager: bool)
    | FaultOp(p: nat, va: nat)
    | ReapOp(p: nat)

  class Machine {
    const m: Physical
    const tramp: nat
    var procs: map<nat, Proc>
    ghost var t: Ledger

    ghost predicate Valid()
      reads this, m
    {
      m.Ready() && Books(m.w, t) && t.procs == procs && t.tramp == tramp
    }

    /** The machine before the first process. */
    constructor (mem: Physical, trampoline: nat)
      requires mem.Ready() && mem.w.spaces == map[] && trampoline !in mem.w.role
      ensures Valid() && m == mem && tramp == trampoline && procs == map[]
    {
      m, tramp, procs := mem, trampoline, map[];
      t := Ledger(map[], map[], map[], HeldPages(mem.w), trampoline);
      NoProcesses(mem.w, trampoline);
    }

    /** growproc. */
    method Growproc(p: nat, n: int) returns (ok: bool)
      requires Valid() && p in procs && -0x8000_0000 <= n < 0x8000_0000
      modifies this, m
      ensures Valid() && p in procs && t == Resized(old(t), p, procs[p].sz) && m.w.role.Keys == old(m.w).role.Keys
      ensures GrowSpec(old(m.w), m.w, procs[p].root, old(procs)[p].sz, n, procs[p].sz, ok)
      ensures OthersSee(old(m.w), m.w, old(procs), p)
    {
      BooksOf(m.w, t, p);
      ghost var w := m.w;
      var x := procs[p];
      var sz;
      sz, ok := NewSize(x.root, x.sz, n);
      BooksGrown(w, m.w, t, p, n, sz, ok);
      GrowIsolated(w, m.w, t, p, n, sz, ok);
      procs := procs[p := x.(sz := sz)];
      t := Resized(t, p, sz);
    }

    /** growproc's choice between growing, shrinking and neither. */
    method NewSize(r: nat, sz: nat, n: int) returns (sz': nat, ok: bool)
      requires m.Ready() && r in m.w.spaces && sz <= MAXSZ && -0x8000_0000 <= n < 0x8000_0000
      requires LeavesBelow(m.w.spaces[r].leaf, Up(sz))
      modifies m
      ensures m.Ready() && GrowSpec(old(m.w), m.w, r, sz, n, sz', ok)
    {
      sz', ok := sz, true;
      if n > 0 {
        if sz + n > MAXSZ {
          ok := false;
        } else {
          UpMonotone(sz, sz + n);
          sz', ok := Grow(r, sz, sz + n);
        }
      } else if n < 0 {
        var newsz := if sz + n >= 0 then sz + n else sz + n + 0x1_0000_0000_0000_0000;
        UpMonotone(if newsz < sz then newsz else sz, sz);
        sz' := Uvmdealloc(m, r, sz, newsz);
      }
    }

    /** growproc's call of uvmalloc, of which 0 means failure. */
    method Grow(r: nat, sz: nat, newsz: nat) returns (sz': nat, ok: bool)
      requires m.Ready() && r in m.w.spaces && sz < newsz <= MAXSZ && Up(sz) <= Up(newsz)
      requires LeavesBelow(m.w.spaces[r].leaf, Up(sz))
      modifies m
      ensures m.Ready() && sz' == if ok then newsz else sz
      ensures ok ==> Did(old(m.w), m.w, Fills(r, ZeroPages(Up(sz), Gap(sz, newsz), PTE_R + PTE_U + PTE_W)))
      ensures !ok ==> Did(old(m.w), m.w, Grew(r))
      ensures ok <==> CanGrow(old(m.w), r, sz, newsz - sz)
    {
      ghost var done;
      sz', done := Uvmalloc(m, r, sz, newsz, PTE_W);
      ok := sz' != 0;
      if !ok {
        sz' := sz;
      }
    }

    /** sys_sbrk: returns the old size, or -1. */
    method Sbrk(p: nat, n: int, eager: bool) returns (addr: int)
      requires Valid() && p in procs && -0x8000_0000 <= n < 0x8000_0000
      modifies this, m
      ensures Valid() && p in procs && t == Resized(old(t), p, procs[p].sz) && m.w.role.Keys == old(m.w).role.Keys
      ensures addr == old(procs)[p].sz || addr == -1
      ensures eager || n < 0 ==> GrowSpec(old(m.w), m.w, procs[p].root, old(procs)[p].sz, n, procs[p].sz, addr != -1)
      ensures !eager && n >= 0 ==> m.w == old(m.w) && (addr != -1 <==> old(procs)[p].sz + n <= MAXSZ)
      ensures !eager && n >= 0 ==> procs[p].sz == if addr != -1 then old(procs)[p].sz + n else old(procs)[p].sz
      ensures OthersSee(old(m.w), m.w, old(procs), p)
    {
      BooksOf(m.w, t, p);
      NothingDone(m.w, t, p);
      addr := procs[p].sz;
      if eager || n < 0 {
        var ok := Growproc(p, n);
        if !ok {
          return -1;
        }
      } else if addr + n > MAXSZ {
        assert Resized(t, p, procs[p].sz) == t;
        return -1;
      } else {
        BooksLazy(m.w, t, p, addr + n);
        procs := procs[p := procs[p].(sz := addr + n)];
        t := Resized(t, p, addr + n);
      }
    }

    /** A page fault at `va`, or copyin/copyout touching it. */
    method Fault(p: nat, va: nat) returns (f: nat)
      requires Valid() && p in procs
      modifies this, m
      ensures Valid() && procs == old(procs) && t == old(t) && m.w.role.Keys == old(m.w).role.Keys
      ensures var r, v := procs[p].root, va / PGSIZE;
              if va >= procs[p].sz || (r in old(m.w).spaces && v in old(m.w).spaces[r].leaf) then f == 0
              && m.w == old(m.w)
              else if f == 0 then Did(old(m.w), m.w, Grew(r))
              else Did(old(m.w), m.w, Fills(r, map[v := Page(PTE_W + PTE_U + PTE_R, Zeros())]))
      ensures OthersSee(old(m.w), m.w, procs, p)
      ensures procs[p].root in old(m.w).spaces
      ensures f != 0 <==> && va < procs[p].sz && va / PGSIZE !in old(m.w).spaces[procs[p].root].leaf
                          && |old(m.w).free| >= Need(old(m.w).spaces[procs[p].root], {va / PGSIZE})
    {
      BooksOf(m.w, t, p);
      ghost var w := m.w;
      f := Vmfault(m, procs[p].root, procs[p].sz, va);
      BooksFault(w, m.w, t, p, va, f);
      FaultIsolated(w, m.w, t, p, va, f);
    }

    /** allocproc, for a slot that is unused. */
    method Allocproc() returns (r: nat, frame: nat)
      requires Valid()
      modifies m
      ensures m.Ready()
      ensures r == 0 ==> Restored(old(m.w), m.w)
      ensures r != 0 ==> Started(old(m.w), m.w, r, frame) && OnlyTop(m.w.spaces[r], tramp, frame)
      ensures r != 0 <==> |old(m.w).free| >= 4
      ensures r != 0 ==> |old(m.w).free| == |m.w.free| + 4 && TopTables(m.w.spaces[r])
    {
      TopIsTwo();
      UnfoldBooks(m.w, t);
      ghost var u := m.w;
      r := 0;
      frame := m.Kalloc();
      if frame != 0 {
        r := ProcPagetable(m, tramp, frame);
        if r == 0 {
          FrameUndone(u, m.w, frame);
          m.FreeHeld(frame);
        }
      }
    }

    /** freeproc: the trapframe goes first, then the page table and what it maps. */
    method Freeproc(r: nat, sz: nat, frame: nat)
      requires m.Ready() && r in m.w.spaces && sz <= MAXSZ && frame in m.w.role && m.w.role[frame].Held?
      requires LeavesBelow(m.w.spaces[r].leaf, Up(sz))
      modifies m
      ensures m.Ready() && Gone(Released(old(m.w), frame), m.w, r)
    {
      m.FreeHeld(frame);
      ProcFreepagetable(m, r, sz);
    }

    /** userinit: the first process has an empty memory. */
    method Userinit(p: nat) returns (ok: bool)
      requires Valid() && p !in procs
      modifies this, m
      ensures Valid() && m.w.role.Keys == old(m.w).role.Keys
      ensures if ok then p in procs && procs[p].sz == 0 && t == Joined(old(t), p, procs[p]) else t == old(t)
      ensures AllSee(old(m.w), m.w, old(procs)) && (ok <==> |old(m.w).free| >= 4)
    {
      ghost var u := m.w;
      var r, frame := Allocproc();
      ok := r != 0;
      if ok {
        var x := Proc(r, 0, frame);
        BooksStarted(u, m.w, t, p, x);
        AllSeeStarted(u, m.w, t, r, frame);
        procs := procs[p := x];
        t := Joined(t, p, x);
      } else {
        BooksRestored(u, m.w, t);
        AllSeeRestored(u, m.w, t);
      }
    }

    /** kfork, memory only: the child in slot `c` sees exactly what its parent sees; every
        process that was there sees what it saw; a failure leaves no trace. It fails exactly when
        there are not enough free pages: a trapframe, three page tables, and what the copies of
        the parent's pages take. */
    method Fork(p: nat, c: nat) returns (ok: bool)
      requires Valid() && p in procs && c !in procs
      modifies this, m
      ensures Valid() && m.w.role.Keys == old(m.w).role.Keys
      ensures !ok ==> t == old(t) && Restored(old(m.w), m.w)
      ensures ok ==> c in procs && procs[c].sz == old(procs)[p].sz && t == Joined(old(t), c, procs[c])
      ensures ok ==> p in old(procs) && Forked(old(m.w), m.w, old(procs)[p].root, procs[c].root)
      ensures AllSee(old(m.w), m.w, old(procs)) && old(procs)[p].root in old(m.w).spaces
      ensures ok <==> |old(m.w).free| >= 4 + ChildNeed(Have(old(m.w), old(procs)[p].root, Up(old(procs)[p].sz)))
    {
      BooksOf(m.w, t, p);
      ghost var u := m.w;
      var x := procs[p];
      var r, frame := Allocproc();
      if r == 0 {
        BooksRestored(u, m.w, t);
        AllSeeRestored(u, m.w, t);
        return false;
      }
      ghost var b := m.w;
      ViewStarted(u, b, r, frame, x.root);
      ok := Uvmcopy(m, x.root, r, x.sz);
      ForkNeed(u, b, r, frame, x.root, Up(x.sz));
      if !ok {
        ghost var w := m.w;
        CopyFailed(u, b, w, r, frame, tramp);
        Freeproc(r, 0, frame);
        StartUndone(u, w, m.w, r, frame);
        BooksRestored(u, m.w, t);
        AllSeeRestored(u, m.w, t);
      } else {
        CopiedAll(b, m.w, x.root, r, Up(x.sz));
        Admit(p, c, r, frame, u, b);
      }
    }

    /** The rest of kfork once memory is copied: the registers, with 0 in the child's a0,
        and the process table. */
    method Admit(p: nat, c: nat, r: nat, frame: nat, ghost u: WfWorld, ghost b: WfWorld)
      requires m.Ready() && Books(u, t) && t.procs == procs && t.tramp == tramp && p in procs && c !in procs
      requires Started(u, b, r, frame) && OnlyTop(b.spaces[r], tramp, frame) && procs[p].root in b.spaces
      requires Did(b, m.w, Fills(r, PagesBelow(b, procs[p].root, Up(procs[p].sz))))
      modifies this, m
      ensures Valid() && m.w.role.Keys == u.role.Keys && p in procs
      ensures c in procs && procs[c].root == r && procs[c].sz == old(procs)[p].sz && t == Joined(old(t), c, procs[c])
      ensures Forked(u, m.w, old(procs)[p].root, r)
      ensures AllSee(u, m.w, old(procs))
    {
      var x := procs[p];
      ghost var w := m.w;
      FrameData(u, b, w, t, p, r, frame, PagesBelow(b, x.root, Up(x.sz)));
      var regs: seq<nat> := m.mem[x.frame][14 := 0];
      HeldWrite(w, frame, regs);
      ForkDone(u, b, w, t, p, c, r, frame, regs);
      m.mem := m.mem[frame := regs];
      m.w := w.(mem := w.mem[frame := regs]);
      procs := procs[c := Proc(r, x.sz, frame)];
      t := Joined(t, c, Proc(r, x.sz, frame));
    }

    /** kwait reaping a zombie, memory only: every page the process had is free again, and
        every other process sees what it saw. */
    method Reap(p: nat)
      requires Valid() && p in procs
      modifies this, m
      ensures Valid() && m.w.role.Keys == old(m.w).role.Keys
      ensures procs == old(procs) - {p} && t == Departed(old(t), p)
      ensures forall f :: f in m.w.role ==>
                m.w.role[f] == if Within(old(m.w).role[f], old(procs)[p].root) || f == old(procs)[p].frame then Free
                               else old(m.w).role[f]
      ensures OthersSee(old(m.w), m.w, old(procs), p)
    {
      BooksOf(m.w, t, p);
      FrameHeld(m.w, t, p);
      ghost var u := m.w;
      var x := procs[p];
      Freeproc(x.root, x.sz, x.frame);
      ReapDone(u, m.w, t, p);
      procs := procs - {p};
      t := Departed(t, p);
    }

    /** One operation. Requests that name no process, or a slot in use, are the ones the
        kernel turns down before it touches memory. */
    method Step(op: Op)
      requires Valid()
      modifies this, m
      ensures Valid() && m.w.role.Keys == old(m.w).role.Keys && t.kept == old(t).kept
      ensures forall q :: q in old(procs) && !ActsOn(op, q) ==> Unaffected(old(m.w), m.w, old(procs), procs, q)
    {
      AllSeeSelf(m.w, t);
      match op
      case InitOp(p) =>
        if p !in procs {
          var _ := Userinit(p);
        }
      case ForkOp(p, c) =>
        if p in procs && c !in procs {
          var _ := Fork(p, c);
        }
      case SbrkOp(p, n, eager) =>
        if p in procs && -0x8000_0000 <= n < 0x8000_0000 {
          var _ := Sbrk(p, n, eager);
        }
      case FaultOp(p, va) =>
        if p in procs {
          var _ := Fault(p, va);
        }
      case ReapOp(p) =>
        if p in procs {
          Reap(p);
        }
    }

    /** Any sequence of operations: a process on which none of them acts keeps its size, and
        sees the same pages with the same contents as before. */
    method Run(ops: seq<Op>)
      requires Valid()
      modifies this, m
      ensures Valid() && m.w.role.Keys == old(m.w).role.Keys && t.kept == old(t).kept
      ensures forall q :: q in old(procs) && (forall i :: 0 <= i < |ops| ==> !ActsOn(ops[i], q)) ==>
                Unaffected(old(m.w), m.w, old(procs), procs, q)
    {
      AllSeeSelf(m.w, t);
      for i := 0 to |ops|
        invariant Valid() && m.w.role.Keys == old(m.w).role.Keys && t.kept == old(t).kept
        invariant forall q :: q in old(procs) && (forall j :: 0 <= j < i ==> !ActsOn(ops[j], q)) ==>
                    Unaffected(old(m.w), m.w, old(procs), procs, q)
      {
        ghost var w, was := m.w, procs;
        Step(ops[i]);
        forall q | q in old(procs) && (forall j :: 0 <= j < i + 1 ==> !ActsOn(ops[j], q))
          ensures Unaffected(old(m.w), m.w, old(procs), procs, q)
        {
          UnaffectedTwice(old(m.w), w, m.w, old(procs), was, procs, q);
        }
      }
    }
  }

  /** Does the operation act on the memory of process `q`? Forking a process does not. */
  predicate ActsOn(op: Op, q: nat) {
    match op
    case InitOp(_) => false
    case ForkOp(_, _) => false
    case SbrkOp(p, _, _) => p == q
    case FaultOp(p, _) => p == q
    case ReapOp(p) => p == q
  }

  /** Process `q` has the memory it had. */
  ghost predicate Unaffected(w: World, w': World, procs: map<nat, Proc>, procs': map<nat, Proc>, q: nat) {
    q in procs && q in procs' && procs'[q] == procs[q] && SameView(w, w', procs[q].root)
  }

  lemma {:induction false} UnaffectedTwice(
    u: World, v: World, w: World, a: map<nat, Proc>, b: map<nat, Proc>, c: map<nat, Proc>, q: nat)
    requires Unaffected(u, v, a, b, q) && Unaffected(v, w, b, c, q)
    ensures Unaffected(u, w, a, c, q)
  {
    ViewTwice(u, v, w, a[q].root);
  }

  lemma {:induction false} AllSeeSelf(w: WfWorld, t: Ledger)
    requires Books(w, t)
    ensures AllSee(w, w, t.procs)
  {
    forall q | q in t.procs ensures SameView(w, w, t.procs[q].root) {
      BooksOf(w, t, q);
      ViewKept(w, w, t.procs[q].root);
    }
  }

  /** Lazy growth only raises the size. */
  lemma {:induction false} BooksLazy(w: World, t: Ledger, p: nat, sz: nat)
    requires Books(w, t) && p in t.procs && t.procs[p].sz <= sz <= MAXSZ
    ensures Books(w, Resized(t, p, sz))
  {
    BooksOf(w, t, p);
    UpMonotone(t.procs[p].sz, sz);
    GrewNothing(w, t.procs[p].root);
    BooksAfter(w, w, t, p, sz, Grew(t.procs[p].root));
  }

  ghost function HeldPages(w: World): set<nat> { set f | f in w.role && w.role[f].Held? }

  lemma NoProcesses(w: World, tramp: nat)
    requires w.spaces == map[] && tramp !in w.role
    ensures Books(w, Ledger(map[], map[], map[], HeldPages(w), tramp))
  {
    UnfoldBooks(w, Ledger(map[], map[], map[], HeldPages(w), tramp));
  }

  lemma {:induction false} BooksFault(w: World, w': World, t: Ledger, p: nat, va: nat, f: nat)
    requires Books(w, t) && p in t.procs
    requires var r, v := t.procs[p].root, va / PGSIZE;
             if va >= t.procs[p].sz || (r in w.spaces && v in w.spaces[r].leaf) then w' == w
             else if f == 0 then Did(w, w', Grew(r))
             else Did(w, w', Fills(r, map[v := Page(PTE_W + PTE_U + PTE_R, Zeros())]))
    ensures Books(w', t) && w'.role.Keys == w.role.Keys
  {
    BooksOf(w, t, p);
    var x, v := t.procs[p], va / PGSIZE;
    assert Resized(t, p, x.sz) == t;
    if va < x.sz && v !in w.spaces[x.root].leaf {
      if f == 0 {
        LeavesGrew(w, w', x.root);
        BooksAfter(w, w', t, p, x.sz, Grew(x.root));
      } else {
        var want := map[v := Page(PTE_W + PTE_U + PTE_R, Zeros())];
        LeavesFilled(w, w', x.root, want, Up(x.sz), Up(x.sz), t.tramp, x.frame);
        BooksAfter(w, w', t, p, x.sz, Fills(x.root, want));
      }
    }
  }

  lemma {:induction false} FaultIsolated(w: WfWorld, w': WfWorld, t: Ledger, p: nat, va: nat, f: nat)
    requires Books(w, t) && p in t.procs
    requires var r, v := t.procs[p].root, va / PGSIZE;
             if va >= t.procs[p].sz || (r in w.spaces && v in w.spaces[r].leaf) then w' == w
             else if f == 0 then Did(w, w', Grew(r))
             else Did(w, w', Fills(r, map[v := Page(PTE_W + PTE_U + PTE_R, Zeros())]))
    ensures OthersSee(w, w', t.procs, p)
  {
    var r, v := t.procs[p].root, va / PGSIZE;
    if va >= t.procs[p].sz || (r in w.spaces && v in w.spaces[r].leaf) {
      NothingDone(w, t, p);
    } else {
      Isolated(w, w', t, p, if f == 0 then Grew(r) else Fills(r, map[v := Page(PTE_W + PTE_U + PTE_R, Zeros())]));
    }
  }

  lemma {:induction false} StartedHeld(u: World, w: World, r: nat, frame: nat)
    requires Started(u, w, r, frame)
    ensures w.role.Keys == u.role.Keys && SameOthers(u, w, r) && r !in u.spaces && r in w.spaces && !u.role[frame].Held?
    ensures forall f :: f in u.role ==> (w.role[f].Held? <==> u.role[f].Held? || f == frame)
  {
  }

  lemma {:induction false} BooksStarted(u: World, w: World, t: Ledger, p: nat, x: Proc)
    requires Books(u, t) && p !in t.procs && Started(u, w, x.root, x.frame) && x.sz == 0
             && OnlyTop(w.spaces[x.root], t.tramp, x.frame)
    ensures Books(w, Joined(t, p, x))
  {
    StartedHeld(u, w, x.root, x.frame);
    BooksJoined(u, w, t, p, x);
  }

  lemma {:induction false} StartedThen(u: World, b: World, w: World, r: nat, frame: nat, c: Change)
    requires Started(u, b, r, frame) && Did(b, w, c) && c.r == r && !c.Maps?
    ensures Started(u, w, r, frame) && frame in w.role && w.role[frame].Held?
  {
    AddedThen(Allocated(u), b, w, r, c);
    assert Allocated(u).role[frame].Held?;
  }

  lemma {:induction false} CopyFailed(u: World, b: World, w: World, r: nat, frame: nat, tramp: nat)
    requires Started(u, b, r, frame) && OnlyTop(b.spaces[r], tramp, frame) && Did(b, w, Grew(r))
    ensures Started(u, w, r, frame) && frame in w.role && w.role[frame].Held? && LeavesBelow(w.spaces[r].leaf, Up(0))
  {
    StartedThen(u, b, w, r, frame, Grew(r));
    LeavesGrew(b, w, r);
  }

  /** The parent's registers can be read and the child's trapframe page written. */
  lemma {:induction false} FrameData(
    u: World, b: World, w: WfWorld, t: Ledger, p: nat, r: nat, frame: nat, want: map<nat, Page>)
    requires Books(u, t) && p in t.procs && Started(u, b, r, frame) && Did(b, w, Fills(r, want))
    ensures frame in w.role && w.role[frame].Held?
    ensures t.procs[p].frame in w.mem && |w.mem[t.procs[p].frame]| == 512
  {
    StartedThen(u, b, w, r, frame, Fills(r, want));
    UnfoldBooks(u, t);
    var f := t.procs[p].frame;
    assert f in t.frameOf;
    assert f in w.role;
    PageThere(w, f);
  }

  lemma {:induction false} BooksMem(w: World, t: Ledger, mem: Memory)
    requires Books(w, t)
    ensures Books(w.(mem := mem), t)
  {
    UnfoldBooks(w, t);
    UnfoldBooks(w.(mem := mem), t);
    forall q | q in t.procs ensures ProcOk(w.(mem := mem), t.procs[q], t.tramp) {
      assert ProcOk(w, t.procs[q], t.tramp);
    }
  }

  lemma {:induction false} ViewTwice(u: World, v: World, w: World, o: nat)
    requires SameView(u, v, o) && SameView(v, w, o)
    ensures SameView(u, w, o)
  {
  }

  /** An entry made with the flags of a valid entry has those flags. */
  lemma {:induction false} FlagsCopied(pte: nat, f: nat)
    requires IsValid(pte)
    ensures Flags(LeafPte(f, Flags(pte))) == Flags(pte)
  {
    assert Flags(pte) % 2 == 1;
    EntryRoundTrip(f, Flags(pte));
  }

  lemma {:induction false} CopiedView(b: WfWorld, w: WfWorld, o: nat, r: nat, n: nat, tramp: nat, frame: nat)
    requires o in b.spaces && r in b.spaces && o != r && Did(b, w, Fills(r, PagesBelow(b, o, n)))
    requires OnlyTop(b.spaces[r], tramp, frame) && LeavesBelow(b.spaces[o].leaf, n) && n <= TRAPFRAME
    ensures Forked(b, w, o, r)
  {
    UnfoldFills(b, w, r, PagesBelow(b, o, n));
    var want := PagesBelow(b, o, n);
    forall v | v < TRAPFRAME && v in b.spaces[o].leaf ensures PageOf(w, r, v) == PageOf(b, o, v) {
      assert v in want && Filled1(w, r, v, want[v]);
      LeafHasTables(b, o, v);
      PageThere(b, b.spaces[o].page[v]);
      FlagsCopied(b.spaces[o].leaf[v], w.spaces[r].page[v]);
    }
  }

  lemma {:induction false} ForkedTwice(u: World, b: World, w: World, d: World, o: nat, r: nat)
    requires SameView(u, b, o) && Forked(b, w, o, r) && SameView(w, d, r)
    ensures Forked(u, d, o, r)
  {
  }

  lemma {:induction false} HeldWriteView(w: WfWorld, d: WfWorld, frame: nat, regs: seq<nat>, o: nat)
    requires frame in w.role && w.role[frame].Held? && d == w.(mem := w.mem[frame := regs]) && o in w.spaces
    ensures SameView(w, d, o)
  {
    ViewKept(w, d, o);
  }

  lemma {:induction false} ForkBooks(u: World, w: World, t: Ledger, p: nat, c: nat, r: nat, frame: nat)
    requires Books(u, t) && p in t.procs && c !in t.procs && Started(u, w, r, frame)
    requires LeavesBelow(w.spaces[r].leaf, Up(t.procs[p].sz)) && TopOk(w.spaces[r].leaf, t.tramp, frame)
    ensures Books(w, Joined(t, c, Proc(r, t.procs[p].sz, frame)))
  {
    BooksOf(u, t, p);
    StartedHeld(u, w, r, frame);
    BooksJoined(u, w, t, c, Proc(r, t.procs[p].sz, frame));
  }

  lemma {:induction false} ForkDone(
    u: WfWorld, b: WfWorld, w: WfWorld, t: Ledger, p: nat, c: nat, r: nat, frame: nat, regs: seq<nat>)
    requires Books(u, t) && p in t.procs && c !in t.procs && Started(u, b, r, frame)
             && OnlyTop(b.spaces[r], t.tramp, frame)
    requires t.procs[p].root in b.spaces && Did(b, w, Fills(r, PagesBelow(b, t.procs[p].root, Up(t.procs[p].sz))))
    requires WfAt(w.(mem := w.mem[frame := regs]), DEPTH)
    ensures var d := w.(mem := w.mem[frame := regs]);
            && Books(d, Joined(t, c, Proc(r, t.procs[p].sz, frame)))
            && Forked(u, d, t.procs[p].root, r) && d.role.Keys == u.role.Keys
            && AllSee(u, d, t.procs)
  {
    var x, d := t.procs[p], w.(mem := w.mem[frame := regs]);
    var want := PagesBelow(b, x.root, Up(x.sz));
    BooksOf(u, t, p);
    StartedThen(u, b, w, r, frame, Fills(r, want));
    LeavesFilled(b, w, r, want, 0, Up(x.sz), t.tramp, frame);
    ForkBooks(u, w, t, p, c, r, frame);
    BooksMem(w, Joined(t, c, Proc(r, x.sz, frame)), w.mem[frame := regs]);
    ForkCopy(u, b, w, d, x.root, r, Up(x.sz), t.tramp, frame, regs);
    ForkSeen(u, w, d, t, r, frame, regs);
  }

  lemma {:induction false} ForkSeen(u: WfWorld, w: WfWorld, d: WfWorld, t: Ledger, r: nat, frame: nat, regs: seq<nat>)
    requires Books(u, t) && Started(u, w, r, frame) && frame in w.role && w.role[frame].Held?
    requires d == w.(mem := w.mem[frame := regs])
    ensures AllSee(u, d, t.procs)
  {
    forall q | q in t.procs ensures SameView(u, d, t.procs[q].root) {
      BooksOf(u, t, q);
      ForkView(u, w, d, r, frame, regs, t.procs[q].root);
    }
  }

  lemma {:induction false} ForkCopy(
    u: WfWorld, b: WfWorld, w: WfWorld, d: WfWorld, o: nat, r: nat, n: nat, tramp: nat, frame: nat, regs: seq<nat>)
    requires Started(u, b, r, frame) && OnlyTop(b.spaces[r], tramp, frame) && frame in w.role && w.role[frame].Held?
    requires o in u.spaces && o in b.spaces && LeavesBelow(u.spaces[o].leaf, n) && n <= TRAPFRAME
    requires Did(b, w, Fills(r, PagesBelow(b, o, n))) && r in w.spaces && d == w.(mem := w.mem[frame := regs])
    ensures Forked(u, d, o, r)
  {
    ViewStarted(u, b, r, frame, o);
    CopiedView(b, w, o, r, n, tramp, frame);
    HeldWriteView(w, d, frame, regs, r);
    ForkedTwice(u, b, w, d, o, r);
  }

  lemma {:induction false} ForkView(u: WfWorld, w: WfWorld, d: WfWorld, r: nat, frame: nat, regs: seq<nat>, o: nat)
    requires Started(u, w, r, frame) && o in u.spaces && frame in w.role && w.role[frame].Held?
    requires d == w.(mem := w.mem[frame := regs])
    ensures SameView(u, d, o)
  {
    ViewStarted(u, w, r, frame, o);
    HeldWriteView(w, d, frame, regs, o);
    ViewTwice(u, w, d, o);
  }

  lemma {:induction false} FrameHeld(w: World, t: Ledger, p: nat)
    requires Books(w, t) && p in t.procs
    ensures t.procs[p].frame in w.role && w.role[t.procs[p].frame].Held?
  {
    UnfoldBooks(w, t);
    assert t.procs[p].frame in t.frameOf;
  }

  lemma {:induction false} ReapDone(u: WfWorld, w: WfWorld, t: Ledger, p: nat)
    requires Books(u, t) && p in t.procs && Gone(Released(u, t.procs[p].frame), w, t.procs[p].root)
    ensures Books(w, Departed(t, p)) && w.role.Keys == u.role.Keys
    ensures forall f :: f in w.role ==>
              w.role[f] == if Within(u.role[f], t.procs[p].root) || f == t.procs[p].frame then Free else u.role[f]
    ensures forall q :: q in t.procs && q != p ==> SameView(u, w, t.procs[q].root)
  {
    FrameHeld(u, t, p);
    BooksDeparted(u, w, t, p);
    forall q | q in t.procs && q != p ensures SameView(u, w, t.procs[q].root) {
      OtherRoot(u, t, p, q);
      ViewReaped(u, w, t.procs[p].root, t.procs[p].frame, t.procs[q].root);
    }
  }

  lemma {:induction false} OtherRoot(w: World, t: Ledger, p: nat, q: nat)
    requires Books(w, t) && p in t.procs && q in t.procs && p != q
    ensures t.procs[q].root != t.procs[p].root && t.procs[q].root in w.spaces
  {
    UnfoldBooks(w, t);
    assert t.own[t.procs[q].root] == q && t.own[t.procs[p].root] == p;
  }

  lemma {:induction false} ViewReaped(u: WfWorld, w: WfWorld, r: nat, frame: nat, o: nat)
    requires frame in u.role && u.role[frame].Held? && Gone(Released(u, frame), w, r) && o in u.spaces && o != r
    ensures SameView(u, w, o)
  {
    ViewKept(u, w, o);
  }

  // ---------------------------------------------------------------- conservation

  /** The ways a page can be in use, read off the free list, the page tables, the process
      table and the kernel's own pages. */
  datatype Use =
    | OnList(i: nat)
    | RootOf(p: nat)
    | MidOf(p: nat, i: nat)
    | LowOf(p: nat, j: nat)
    | UserOf(p: nat, v: nat)
    | FrameOf(p: nat)
    | Kernel

  ghost predicate IsUse(w: World, t: Ledger, f: nat, x: Use) {
    match x
    case OnList(i) => i < |w.free| && w.free[i] == f
    case Kernel => f in t.kept
    case FrameOf(p) => p in t.procs && t.procs[p].frame == f
    case RootOf(p) => p in t.procs && t.procs[p].root == f
    case MidOf(p, i) =>
      p in t.procs && t.procs[p].root in w.spaces && var sp := w.spaces[t.procs[p].root]; i in sp.mid && sp.mid[i] == f
    case LowOf(p, j) =>
      p in t.procs && t.procs[p].root in w.spaces && var sp := w.spaces[t.procs[p].root]; j in sp.low && sp.low[j] == f
    case UserOf(p, v) =>
      && p in t.procs && t.procs[p].root in w.spaces
      && var sp := w.spaces[t.procs[p].root]; v < TRAPFRAME && v in sp.leaf && Ppn(sp.leaf[v]) == f
  }

  ghost function RoleFor(t: Ledger, x: Use): Role
    requires x.RootOf? || x.MidOf? || x.LowOf? || x.UserOf? ==> x.p in t.procs
  {
    match x
    case OnList(_) => Free
    case Kernel => Held
    case FrameOf(_) => Held
    case RootOf(p) => Root(t.procs[p].root)
    case MidOf(p, i) => Mid(t.procs[p].root, i)
    case LowOf(p, j) => Low(t.procs[p].root, j)
    case UserOf(p, v) => User(t.procs[p].root, v)
  }

  /** How a page is used determines its role. */
  lemma {:induction false} UseGivesRole(w: WfWorld, t: Ledger, f: nat, x: Use)
    requires Books(w, t) && IsUse(w, t, f, x)
    ensures f in w.role && w.role[f] == RoleFor(t, x)
  {
    UnfoldBooks(w, t);
    match x
    case OnList(i) => UnfoldWorld(w);
    case Kernel =>
    case FrameOf(p) => FrameHeld(w, t, p);
    case RootOf(p) => SpaceIn(w, f);
    case MidOf(p, i) =>
      SpaceIn(w, t.procs[p].root);
      MidIn(w.mem, w.role, w.spaces[t.procs[p].root], i);
    case LowOf(p, j) =>
      SpaceIn(w, t.procs[p].root);
      LowIn(w.mem, w.role, w.spaces[t.procs[p].root], j);
    case UserOf(p, v) => LeafHasTables(w, t.procs[p].root, v);
  }

  /** Two uses of one page are the same use. */
  lemma {:induction false} UseUnique(w: WfWorld, t: Ledger, f: nat, x: Use, y: Use)
    requires Books(w, t) && IsUse(w, t, f, x) && IsUse(w, t, f, y)
    ensures x == y
  {
    UseGivesRole(w, t, f, x);
    UseGivesRole(w, t, f, y);
    UnfoldBooks(w, t);
    if x.OnList? {
      UnfoldWorld(w);
      assert FreeOk(w.mem, w.role, w.head, w.free);
    }
  }

  /** Every page the allocator manages is in use in one way. */
  lemma {:induction false} UseExists(w: WfWorld, t: Ledger, f: nat) returns (x: Use)
    requires Books(w, t) && f in w.role
    ensures IsUse(w, t, f, x)
  {
    UnfoldWorld(w);
    UnfoldBooks(w, t);
    assert RoleOk(w, f);
    match w.role[f]
    case Free =>
      var i :| 0 <= i < |w.free| && w.free[i] == f;
      x := OnList(i);
    case Held =>
      if f in t.kept {
        x := Kernel;
      } else {
        x := FrameOf(t.frameOf[f]);
      }
    case Root(r) => x := RootOf(t.own[r]);
    case Mid(r, i) => x := MidOf(t.own[r], i);
    case Low(r, j) => x := LowOf(t.own[r], j);
    case User(r, v) =>
      LeafHasTables(w, r, v);
      x := UserOf(t.own[r], v);
  }

  /** Conservation: in every state, the managed pages are partitioned into the free list,
      the tables and trapframes of the processes, user pages mapped at exactly one address
      of exactly one process, and the kernel's own pages. */
  lemma {:induction false} EveryPageUsedOnce(w: WfWorld, t: Ledger, f: nat)
    requires Books(w, t) && f in w.role
    ensures exists x :: IsUse(w, t, f, x) && forall y :: IsUse(w, t, f, y) ==> y == x
  {
    var x := UseExists(w, t, f);
    forall y | IsUse(w, t, f, y) ensures y == x {
      UseUnique(w, t, f, y, x);
    }
  }
}
