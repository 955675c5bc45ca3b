/** Concurrent file-system operations sharing the log: begin_op, log_write, end_op, commit,
    sync, crash and recovery of kernel/log.c as one state machine. Every critical section
    under `log.lock` is one step and so is every block write, so a run is any interleaving
    with a crash at any point. */
module LogProtocol {
  import opened Params
  import opened LogDisk
  import opened LogSystem

  /** What a process slot is doing: nothing, or operation `id` which has added `added` new
      blocks to the log so far. */
  datatype Slot = Out | In(id: nat, added: nat)

  datatype Phase =
    | Running
    | Committing(k: nat, base: Disk)  // `k` writes into committing on top of `base`
    | Recovering(k: nat, base: Disk)  // `k` writes into recovering from `base`

  /** A logged write, by process slot `p` on behalf of operation `op`. */
  datatype Write = Write(op: nat, p: nat, block: nat, data: Block)

  /** A process waiting in `sys_sync` for commit number `n`; `need` are the operations that
      had ended when it called. */
  datatype Waiter = Waiter(n: nat, need: set<nat>)

  /** The kernel's state, and below it the history a crash is judged against: every
      log_write in order, how many of them are committed, and the operations that ended
      and that are committed. */
  datatype State = State(
    disk: Disk,
    lh: seq<nat>,
    pinned: map<nat, Block>,
    outstanding: int,
    ncommit: nat,
    phase: Phase,
    slots: seq<Slot>,
    syncs: map<nat, Waiter>,
    journal: seq<Write>,
    committed: nat,
    ended: set<nat>,
    safe: set<nat>,
    nextId: nat)

  datatype Event =
    | Begin(p: nat)
    | LogWrite(p: nat, block: nat, data: Block)
    | End(p: nat)
    | CommitWrite
    | CommitDone
    | SyncCall(p: nat)
    | SyncReturn(p: nat)
    | Crash
    | RecoverWrite
    | RecoverDone

  ghost predicate AllAt(l: Layout, j: seq<Write>) {
    forall i :: 0 <= i < |j| ==> l.Home(j[i].block)
  }

  /** The effect of a list of logged writes on the home blocks. */
  ghost function Effects(l: Layout, d: Disk, j: seq<Write>): (e: Disk)
    requires |d| == l.size && AllAt(l, j)
    ensures |e| == l.size
    decreases |j|
  {
    if j == [] then d
    else
      var n := |j| - 1;
      Effects(l, d, j[..n])[j[n].block := j[n].data]
  }

  function Boot(l: Layout, d: Disk): State
  {
    State(d, [], map[], 0, 0, Recovering(0, d), seq(NPROC, _ => Out), map[], [], 0, {}, {}, 0)
  }

  /** The budget every operation promises to keep: at most MAXOPBLOCKS new blocks. */
  predicate InBudget(s: State, p: nat, b: nat) {
    p < |s.slots| && s.slots[p].In? && (b in s.lh || s.slots[p].added < MAXOPBLOCKS)
  }

  predicate Enabled(l: Layout, s: State, e: Event) {
    match e
    case Begin(p) =>
      p < |s.slots| && s.slots[p].Out? && !s.phase.Recovering?
      && s.outstanding >= 0 && MayBegin(|s.lh|, s.outstanding, s.phase.Committing?)
    case LogWrite(p, b, _) =>
      InBudget(s, p, b) && l.Home(b) && |s.lh| < LOGBLOCKS
    case End(p) => p < |s.slots| && s.slots[p].In?
    case CommitWrite => s.phase.Committing? && s.lh != [] && s.phase.k < 2 * |s.lh| + 2
    case CommitDone => s.phase.Committing? && (s.lh == [] || s.phase.k == 2 * |s.lh| + 2)
    case SyncCall(p) => !s.phase.Recovering? && p !in s.syncs
    case SyncReturn(p) => p in s.syncs && s.ncommit >= s.syncs[p].n
    case Crash => true
    case RecoverWrite =>
      s.phase.Recovering? && l.Wf(s.phase.base) && s.phase.k < |l.Header(s.phase.base)| + 1
    case RecoverDone =>
      s.phase.Recovering? && l.Wf(s.phase.base) && s.phase.k == |l.Header(s.phase.base)| + 1
  }

  /** An arbitrary depth at which `DiskAt` is kept folded: it is unfolded only by calling
      `DiskAtIs`, which keeps proofs short. */
  const DEPTH: nat

  function FoldedDisk(l: Layout, base: Disk, lh: seq<nat>, pinned: map<nat, Block>, k: nat, depth: nat): (e: Disk)
    requires l.Wf(base) && |lh| <= LOGBLOCKS && l.AllHome(lh) && k <= 2 * |lh| + 2 && forall b :: b in lh ==>
               b in pinned
    ensures l.Wf(e)
  {
    if depth == 0 then CommitStep(l, base, lh, Values(pinned, lh), k)
    else FoldedDisk(l, base, lh, pinned, k, depth - 1)
  }

  /** The disk after the first `k` block writes of the commit of the pinned blocks. */
  function DiskAt(l: Layout, base: Disk, lh: seq<nat>, pinned: map<nat, Block>, k: nat): (e: Disk)
    requires l.Wf(base) && |lh| <= LOGBLOCKS && l.AllHome(lh) && k <= 2 * |lh| + 2 && forall b :: b in lh ==>
               b in pinned
    ensures l.Wf(e)
  {
    FoldedDisk(l, base, lh, pinned, k, DEPTH)
  }

  lemma {:induction false} FoldedDiskIs(
    l: Layout, base: Disk, lh: seq<nat>, pinned: map<nat, Block>, k: nat, depth: nat)
    requires l.Wf(base) && |lh| <= LOGBLOCKS && l.AllHome(lh) && k <= 2 * |lh| + 2 && forall b :: b in lh ==>
               b in pinned
    ensures FoldedDisk(l, base, lh, pinned, k, depth) == CommitStep(l, base, lh, Values(pinned, lh), k)
  {
    if depth > 0 {
      FoldedDiskIs(l, base, lh, pinned, k, depth - 1);
    }
  }

  lemma {:induction false} DiskAtIs(l: Layout, base: Disk, lh: seq<nat>, pinned: map<nat, Block>, k: nat)
    requires l.Wf(base) && |lh| <= LOGBLOCKS && l.AllHome(lh) && k <= 2 * |lh| + 2 && forall b :: b in lh ==>
               b in pinned
    ensures DiskAt(l, base, lh, pinned, k) == CommitStep(l, base, lh, Values(pinned, lh), k)
  {
    FoldedDiskIs(l, base, lh, pinned, k, DEPTH);
  }

  function Next(l: Layout, s: State, e: Event): State
    requires Shape(l, s) && Enabled(l, s, e)
  {
    match e
    case Begin(p) =>
      s.(slots := s.slots[p := In(s.nextId, 0)], outstanding := s.outstanding + 1, nextId := s.nextId + 1)
    case LogWrite(p, b, data) =>
      var x := s.slots[p];
      s.(lh := Absorb(s.lh, b), pinned := s.pinned[b := data],
         slots := if b in s.lh then s.slots else s.slots[p := x.(added := x.added + 1)],
         journal := s.journal + [Write(x.id, p, b, data)])
    case End(p) =>
      s.(slots := s.slots[p := Out], outstanding := s.outstanding - 1, ended := s.ended + {s.slots[p].id},
         phase := if s.outstanding == 1 then Committing(0, s.disk) else s.phase)
    case CommitWrite =>
      var t := s.(phase := Committing(s.phase.k + 1, s.phase.base),
                  disk := DiskAt(l, s.phase.base, s.lh, s.pinned, s.phase.k + 1));
      if s.phase.k == |s.lh| then t.(committed := |s.journal|, safe := s.ended) else t
    case CommitDone =>
      s.(phase := Running, ncommit := s.ncommit + 1, lh := [], pinned := map[], safe := s.ended)
    case SyncCall(p) =>
      if s.phase.Committing? || s.outstanding > 0
      then s.(syncs := s.syncs[p := Waiter(s.ncommit + 1, s.ended)])
      else s
    case SyncReturn(p) => s.(syncs := s.syncs - {p})
    case Crash =>
      s.(lh := [], pinned := map[], outstanding := 0, ncommit := 0, phase := Recovering(0, s.disk),
         slots := seq(NPROC, _ => Out), syncs := map[],
         journal := s.journal[..s.committed], ended := s.safe)
    case RecoverWrite =>
      s.(phase := Recovering(s.phase.k + 1, s.phase.base), disk := RecoverStep(l, s.phase.base, s.phase.k + 1))
    case RecoverDone => s.(phase := Running)
  }

  // ---------------------------------------------------------------- counting

  function Active(slots: seq<Slot>): nat {
    if slots == [] then 0
    else Active(slots[..|slots| - 1]) + if slots[|slots| - 1].In? then 1 else 0
  }

  /** Log blocks still promised to operations under way. */
  function Slack(slots: seq<Slot>): nat {
    if slots == [] then 0
    else
      var x := slots[|slots| - 1];
      Slack(slots[..|slots| - 1]) + if x.In? && x.added <= MAXOPBLOCKS then MAXOPBLOCKS - x.added else 0
  }

  lemma {:induction false} ActiveUpdate(slots: seq<Slot>, p: nat, x: Slot)
    requires p < |slots|
    ensures Active(slots[p := x]) + (if slots[p].In? then 1 else 0) == Active(slots) + if x.In? then 1 else 0
    decreases |slots|
  {
    var n := |slots| - 1;
    if p == n {
      assert slots[p := x][..n] == slots[..n];
    } else {
      ActiveUpdate(slots[..n], p, x);
      assert slots[p := x][..n] == slots[..n][p := x];
    }
  }

  function Part(x: Slot): nat {
    if x.In? && x.added <= MAXOPBLOCKS then MAXOPBLOCKS - x.added else 0
  }

  lemma {:induction false} SlackUpdate(slots: seq<Slot>, p: nat, x: Slot)
    requires p < |slots|
    ensures Slack(slots[p := x]) + Part(slots[p]) == Slack(slots) + Part(x)
    decreases |slots|
  {
    var n := |slots| - 1;
    if p == n {
      assert slots[p := x][..n] == slots[..n];
    } else {
      SlackUpdate(slots[..n], p, x);
      assert slots[p := x][..n] == slots[..n][p := x];
    }
  }

  lemma {:induction false} SlackBound(slots: seq<Slot>)
    ensures Slack(slots) <= Active(slots) * MAXOPBLOCKS
    decreases |slots|
  {
    if slots != [] {
      SlackBound(slots[..|slots| - 1]);
    }
  }

  lemma {:induction false} ActiveZero(slots: seq<Slot>, p: nat)
    requires p < |slots|
    ensures slots[p].In? ==> Active(slots) >= 1
    decreases |slots|
  {
    var n := |slots| - 1;
    if p < n {
      ActiveZero(slots[..n], p);
    }
  }

  lemma {:induction false} AllOut(k: nat)
    ensures var s := seq(k, _ => Out); Active(s) == 0 && Slack(s) == 0
  {
    if k > 0 {
      AllOut(k - 1);
      assert seq(k, _ => Out)[..k - 1] == seq(k - 1, _ => Out);
    }
  }

  // ---------------------------------------------------------------- the invariant

  /** The part of the state that the disk is judged by. */
  datatype Image = Image(disk: Disk, lh: seq<nat>, pinned: map<nat, Block>, phase: Phase)

  function Img(s: State): Image {
    Image(s.disk, s.lh, s.pinned, s.phase)
  }

  /** The header lists distinct home blocks, each pinned in the cache. */
  ghost predicate Loggable(l: Layout, lh: seq<nat>, pinned: map<nat, Block>) {
    && |lh| <= LOGBLOCKS && l.AllHome(lh) && NoDup(lh)
    && (forall b :: b in pinned <==> b in lh)
  }

  /** The log in memory is well formed and so are the disks it is about. */
  ghost predicate LogShape(l: Layout, s: Image) {
    && l.Wf(s.disk)
    && Loggable(l, s.lh, s.pinned)
    && (!s.phase.Running? ==> l.Wf(s.phase.base))
    && (s.phase.Recovering? ==> s.lh == [])
  }

  /** Shapes every step needs in order to make sense. */
  ghost predicate Shape(l: Layout, s: State) {
    && LogShape(l, Img(s))
    && |s.slots| == NPROC && s.outstanding == Active(s.slots)
    && (!s.phase.Running? ==> s.outstanding == 0)
    && s.committed <= |s.journal|
  }

  /** Space: every operation keeps its budget, and the log has room for what is promised. */
  ghost predicate Reserved(s: State) {
    && (forall p :: 0 <= p < |s.slots| && s.slots[p].In? ==> s.slots[p].added <= MAXOPBLOCKS)
    && |s.lh| + Slack(s.slots) <= LOGBLOCKS
  }

  predicate Doing(s: State, w: Write) {
    w.p < |s.slots| && s.slots[w.p].In? && s.slots[w.p].id == w.op
  }

  /** Grouping: an operation's writes are all committed or all uncommitted, and only ended
      operations are committed. */
  ghost predicate Grouped(l: Layout, s: State) {
    && AllAt(l, s.journal)
    && (forall i :: 0 <= i < |s.journal| ==>
          && s.journal[i].op < s.nextId
          && (i < s.committed <==> s.journal[i].op in s.safe)
          && (s.journal[i].op in s.ended || Doing(s, s.journal[i])))
    && s.safe <= s.ended
    && (forall id :: id in s.ended ==> id < s.nextId)
    && (forall p :: 0 <= p < |s.slots| && s.slots[p].In? ==> s.slots[p].id < s.nextId && s.slots[p].id !in s.ended)
    && (forall p, q :: 0 <= p < q < |s.slots| && s.slots[p].In? && s.slots[q].In? ==> s.slots[p].id != s.slots[q].id)
    && (s.outstanding == 0 && s.phase.Running? ==> s.safe == s.ended)
    && (s.phase.Recovering? ==> s.safe == s.ended && s.committed == |s.journal|)
    && (s.phase.Committing? && s.phase.k > |s.lh| ==> s.safe == s.ended && s.committed == |s.journal|)
    && (!s.phase.Recovering? && s.lh == [] ==> s.committed == |s.journal|)
  }

  /** A waiter in `sys_sync` is at most one commit away from what it waits for. */
  ghost predicate Waiting(s: State) {
    forall p :: p in s.syncs ==>
      && s.syncs[p].need <= s.ended
      && s.syncs[p].n <= s.ncommit + 1
      && (s.syncs[p].n <= s.ncommit ==> s.syncs[p].need <= s.safe)
  }

  /** The disk a block read sees: pinned buffers over `base`. */
  ghost predicate Views(l: Layout, pinned: map<nat, Block>, base: Disk, e: Disk)
    requires l.size == |base| == |e|
  {
    forall b: nat :: l.Home(b) ==> (if b in pinned then pinned[b] else base[b]) == e[b]
  }

  /** The disk in each phase. `kept` is what the committed writes amount to and `all` what
      all logged writes amount to. */
  ghost predicate OnDisk(l: Layout, s: Image, all: Disk, kept: Disk)
    requires |all| == |kept| == l.size && LogShape(l, s)
  {
    match s.phase
    case Running =>
      l.Header(s.disk) == [] && l.SameHome(s.disk, kept) && Views(l, s.pinned, s.disk, all)
    case Committing(k, base) =>
      && l.Header(base) == [] && Views(l, s.pinned, base, all)
      && k <= 2 * |s.lh| + 2
      && s.disk == DiskAt(l, base, s.lh, s.pinned, k)
      && (s.lh == [] ==> k == 0)
      && (if k <= |s.lh| then l.SameHome(base, kept) else kept == all)
    case Recovering(k, base) =>
      && k <= |l.Header(base)| + 1
      && s.disk == RecoverStep(l, base, k)
      && l.SameHome(Recovered(l, base), kept)
      && kept == all
  }

  /** The bookkeeping in memory. */
  ghost predicate Books(l: Layout, s: State) {
    Shape(l, s) && Reserved(s) && Grouped(l, s) && Waiting(s)
  }

  /** The disk against the journal. */
  ghost predicate Kept(l: Layout, origin: Disk, s: State)
    requires |origin| == l.size && LogShape(l, Img(s)) && AllAt(l, s.journal) && s.committed <= |s.journal|
  {
    OnDisk(l, Img(s), Effects(l, origin, s.journal), Effects(l, origin, s.journal[..s.committed]))
  }

  ghost predicate Inv(l: Layout, origin: Disk, s: State) {
    |origin| == l.size && Books(l, s) && Kept(l, origin, s)
  }

  // ---------------------------------------------------------------- the books

  lemma {:induction false} BeginBooks(l: Layout, s: State, p: nat)
    requires Books(l, s) && Enabled(l, s, Begin(p))
    ensures Books(l, Next(l, s, Begin(p)))
  {
    var x := In(s.nextId, 0);
    ActiveUpdate(s.slots, p, x);
    SlackUpdate(s.slots, p, x);
    SlackBound(s.slots);
  }

  lemma {:induction false} AbsorbLoggable(l: Layout, lh: seq<nat>, pinned: map<nat, Block>, b: nat, data: Block)
    requires Loggable(l, lh, pinned) && |lh| < LOGBLOCKS && l.Home(b)
    ensures Loggable(l, Absorb(lh, b), pinned[b := data])
  {
  }

  lemma {:induction false} LogWriteGrouped(l: Layout, s: State, p: nat, b: nat, data: Block)
    requires Books(l, s) && Enabled(l, s, LogWrite(p, b, data)) && s.outstanding > 0
    ensures Grouped(l, Next(l, s, LogWrite(p, b, data)))
  {
  }

  /** One more block for operation `p`: nobody comes or goes, and its budget shrinks. */
  lemma {:induction false} SlotAdds(slots: seq<Slot>, p: nat)
    requires p < |slots| && slots[p].In? && slots[p].added < MAXOPBLOCKS
    ensures var t := slots[p := slots[p].(added := slots[p].added + 1)];
            Active(t) == Active(slots) && Slack(t) + 1 == Slack(slots)
  {
    var x := slots[p].(added := slots[p].added + 1);
    ActiveUpdate(slots, p, x);
    SlackUpdate(slots, p, x);
  }

  lemma {:induction false} LogWriteReserved(l: Layout, s: State, p: nat, b: nat, data: Block)
    requires Shape(l, s) && Reserved(s) && Enabled(l, s, LogWrite(p, b, data))
    ensures Reserved(Next(l, s, LogWrite(p, b, data)))
  {
    if b !in s.lh {
      SlotAdds(s.slots, p);
    }
  }

  lemma {:induction false} LogWriteShape(l: Layout, s: State, p: nat, b: nat, data: Block)
    requires Shape(l, s) && Enabled(l, s, LogWrite(p, b, data))
    ensures Shape(l, Next(l, s, LogWrite(p, b, data)))
    ensures s.outstanding > 0
  {
    ActiveZero(s.slots, p);
    if b !in s.lh {
      SlotAdds(s.slots, p);
    }
    AbsorbLoggable(l, s.lh, s.pinned, b, data);
  }

  lemma {:induction false} LogWriteBooks(l: Layout, s: State, p: nat, b: nat, data: Block)
    requires Books(l, s) && Enabled(l, s, LogWrite(p, b, data))
    ensures Books(l, Next(l, s, LogWrite(p, b, data)))
  {
    LogWriteShape(l, s, p, b, data);
    LogWriteReserved(l, s, p, b, data);
    LogWriteGrouped(l, s, p, b, data);
  }

  lemma {:induction false} EndBooks(l: Layout, s: State, p: nat)
    requires Books(l, s) && Enabled(l, s, End(p))
    ensures Books(l, Next(l, s, End(p)))
  {
    ActiveZero(s.slots, p);
    ActiveUpdate(s.slots, p, Out);
    SlackUpdate(s.slots, p, Out);
  }

  /** While a commit runs every logged operation has ended. */
  lemma {:induction false} AllEnded(l: Layout, s: State)
    requires Books(l, s) && s.outstanding == 0
    ensures forall i :: 0 <= i < |s.journal| ==> s.journal[i].op in s.ended
  {
    forall p | 0 <= p < |s.slots| ensures !s.slots[p].In? {
      ActiveZero(s.slots, p);
    }
  }

  lemma {:induction false} CommitWriteGrouped(l: Layout, s: State, t: State)
    requires Books(l, s) && s.phase.Committing? && t.phase == Committing(s.phase.k + 1, s.phase.base)
    requires t == s.(disk := t.disk, phase := t.phase, committed := t.committed, safe := t.safe)
    requires if s.phase.k == |s.lh| then t.committed == |s.journal| && t.safe == s.ended
             else t.committed == s.committed && t.safe == s.safe
    ensures Grouped(l, t) && Waiting(t)
  {
    AllEnded(l, s);
  }

  lemma {:induction false} CommitWriteBooks(l: Layout, s: State)
    requires Books(l, s) && Enabled(l, s, CommitWrite)
    ensures Books(l, Next(l, s, CommitWrite))
  {
    CommitWriteGrouped(l, s, Next(l, s, CommitWrite));
  }

  lemma {:induction false} CommitDoneBooks(l: Layout, s: State)
    requires Books(l, s) && Enabled(l, s, CommitDone)
    ensures Books(l, Next(l, s, CommitDone))
  {
    AllEnded(l, s);
  }

  lemma {:induction false} SyncBooks(l: Layout, s: State, e: Event)
    requires Books(l, s) && Enabled(l, s, e) && (e.SyncCall? || e.SyncReturn?)
    ensures Books(l, Next(l, s, e))
  {
  }

  lemma {:induction false} CrashBooks(l: Layout, s: State)
    requires Books(l, s)
    ensures Books(l, Next(l, s, Crash))
  {
    AllOut(NPROC);
  }

  lemma {:induction false} RecoverBooks(l: Layout, s: State, e: Event)
    requires Books(l, s) && Enabled(l, s, e) && (e.RecoverWrite? || e.RecoverDone?)
    ensures Books(l, Next(l, s, e))
  {
  }

  // ---------------------------------------------------------------- the disk

  lemma {:induction false} LogWriteOnDisk(l: Layout, s: Image, t: Image, b: nat, data: Block, all: Disk, kept: Disk)
    requires |all| == |kept| == l.size && LogShape(l, s) && LogShape(l, t) && l.Home(b)
    requires s.phase.Running? && OnDisk(l, s, all, kept)
    requires t.disk == s.disk && t.phase == s.phase && t.pinned == s.pinned[b := data]
    ensures OnDisk(l, t, all[b := data], kept)
  {
  }

  lemma {:induction false} CommitEndsWithAll(l: Layout, base: Disk, lh: seq<nat>, pinned: map<nat, Block>, all: Disk)
    requires |all| == l.size && l.Wf(base) && Loggable(l, lh, pinned) && Views(l, pinned, base, all)
    ensures var e := DiskAt(l, base, lh, pinned, 2 * |lh| + 2);
            l.Header(e) == [] && l.SameHome(e, all)
  {
    DiskAtIs(l, base, lh, pinned, 2 * |lh| + 2);
    CommitKeepsViews(l, base, lh, Values(pinned, lh), pinned);
  }

  lemma {:induction false} CommitDoneOnDisk(l: Layout, s: Image, t: Image, all: Disk, kept: Disk)
    requires |all| == |kept| == l.size && LogShape(l, s) && LogShape(l, t)
    requires s.phase.Committing? && (s.lh == [] || s.phase.k == 2 * |s.lh| + 2) && OnDisk(l, s, all, kept)
    requires t.disk == s.disk && t.lh == [] && t.pinned == map[] && t.phase == Running
    requires s.lh == [] ==> kept == all
    ensures OnDisk(l, t, all, all)
  {
    if s.lh != [] {
      CommitEndsWithAll(l, s.phase.base, s.lh, s.pinned, all);
    } else {
      DiskAtIs(l, s.phase.base, s.lh, s.pinned, 0);
    }
  }

  lemma {:induction false} CommitRecovers(
    l: Layout, base: Disk, lh: seq<nat>, pinned: map<nat, Block>, k: nat, all: Disk)
    requires |all| == l.size && l.Wf(base) && Loggable(l, lh, pinned) && Views(l, pinned, base, all)
    requires l.Header(base) == [] && k <= 2 * |lh| + 2
    ensures l.SameHome(Recovered(l, DiskAt(l, base, lh, pinned, k)), if k <= |lh| then base else all)
  {
    DiskAtIs(l, base, lh, pinned, k);
    CommitStepRecovers(l, base, lh, Values(pinned, lh), k);
    if k > |lh| {
      UpdatedIsView(l, base, lh, Values(pinned, lh), pinned);
    }
  }

  /** Recovery from where the disk stands restores exactly the committed writes. */
  lemma {:induction false} RecoverableDisk(l: Layout, s: Image, all: Disk, kept: Disk)
    requires |all| == |kept| == l.size && LogShape(l, s) && OnDisk(l, s, all, kept)
    ensures l.SameHome(Recovered(l, s.disk), kept)
  {
    match s.phase
    case Running =>
    case Committing(k, base) =>
      CommitRecovers(l, base, s.lh, s.pinned, k, all);
    case Recovering(k, base) =>
      RecoveryRestarts(l, base, k);
  }

  // ---------------------------------------------------------------- whole runs

  lemma {:induction false} EffectsAppend(l: Layout, d: Disk, j: seq<Write>, w: Write)
    requires |d| == l.size && AllAt(l, j) && l.Home(w.block)
    ensures AllAt(l, j + [w])
    ensures Effects(l, d, j + [w]) == Effects(l, d, j)[w.block := w.data]
  {
    assert (j + [w])[..|j|] == j;
  }

  /** Every step keeps the books. */
  lemma {:induction false} StepBooks(l: Layout, s: State, e: Event)
    requires Books(l, s) && Enabled(l, s, e)
    ensures Books(l, Next(l, s, e))
  {
    match e
    case Begin(p) => BeginBooks(l, s, p);
    case LogWrite(p, b, data) => LogWriteBooks(l, s, p, b, data);
    case End(p) => EndBooks(l, s, p);
    case CommitWrite => CommitWriteBooks(l, s);
    case CommitDone => CommitDoneBooks(l, s);
    case SyncCall(_) => SyncBooks(l, s, e);
    case SyncReturn(_) => SyncBooks(l, s, e);
    case Crash => CrashBooks(l, s);
    case RecoverWrite => RecoverBooks(l, s, e);
    case RecoverDone => RecoverBooks(l, s, e);
  }

  lemma {:induction false} JournalKept(l: Layout, origin: Disk, s: State, t: State, b: nat, data: Block, w: Write)
    requires |origin| == l.size && LogShape(l, Img(s)) && AllAt(l, s.journal) && s.committed <= |s.journal|
    requires Kept(l, origin, s) && s.phase.Running? && l.Home(b) && w.block == b && w.data == data
    requires LogShape(l, Img(t)) && AllAt(l, t.journal) && t.disk == s.disk && t.phase == s.phase
    requires t.pinned == s.pinned[b := data] && t.journal == s.journal + [w] && t.committed == s.committed
    ensures Kept(l, origin, t)
  {
    EffectsAppend(l, origin, s.journal, w);
    assert t.journal[..s.committed] == s.journal[..s.committed];
    LogWriteOnDisk(l, Img(s), Img(t), b, data, Effects(l, origin, s.journal),
                   Effects(l, origin, s.journal[..s.committed]));
  }

  lemma {:induction false} LogWriteKept(l: Layout, origin: Disk, s: State, p: nat, b: nat, data: Block)
    requires Inv(l, origin, s) && Enabled(l, s, LogWrite(p, b, data)) && Books(l, Next(l, s, LogWrite(p, b, data)))
    ensures Kept(l, origin, Next(l, s, LogWrite(p, b, data)))
  {
    ActiveZero(s.slots, p);
    JournalKept(l, origin, s, Next(l, s, LogWrite(p, b, data)), b, data, Write(s.slots[p].id, p, b, data));
  }

  lemma {:induction false} EndKept(l: Layout, origin: Disk, s: State, p: nat)
    requires Inv(l, origin, s) && Enabled(l, s, End(p)) && Books(l, Next(l, s, End(p)))
    ensures Kept(l, origin, Next(l, s, End(p)))
  {
    ActiveZero(s.slots, p);
    DiskAtIs(l, s.disk, s.lh, s.pinned, 0);
  }

  lemma TakeAll<T>(s: seq<T>)
    ensures s[..|s|] == s
  {
  }

  lemma {:induction false} CommitImage(l: Layout, s: State)
    requires Shape(l, s) && Enabled(l, s, CommitWrite)
    ensures Img(Next(l, s, CommitWrite)) ==
              Image(DiskAt(l, s.phase.base, s.lh, s.pinned, s.phase.k + 1), s.lh, s.pinned,
                    Committing(s.phase.k + 1, s.phase.base))
  {
  }

  lemma {:induction false} CommitJournal(l: Layout, s: State)
    requires Shape(l, s) && Enabled(l, s, CommitWrite)
    ensures var t := Next(l, s, CommitWrite);
            && t.journal == s.journal
            && t.journal[..t.committed] == if s.phase.k == |s.lh| then s.journal else s.journal[..s.committed]
  {
    TakeAll(s.journal);
  }

  lemma {:induction false} CommitNextOnDisk(l: Layout, s: Image, all: Disk, kept: Disk)
    requires |all| == |kept| == l.size && LogShape(l, s) && OnDisk(l, s, all, kept)
    requires s.phase.Committing? && s.lh != [] && s.phase.k < 2 * |s.lh| + 2
    ensures var t := Image(DiskAt(l, s.phase.base, s.lh, s.pinned, s.phase.k + 1), s.lh, s.pinned,
                           Committing(s.phase.k + 1, s.phase.base));
            LogShape(l, t) && OnDisk(l, t, all, if s.phase.k == |s.lh| then all else kept)
  {
  }

  lemma {:induction false} CommitStepKept(l: Layout, origin: Disk, s: State)
    requires Inv(l, origin, s) && Enabled(l, s, CommitWrite) && Books(l, Next(l, s, CommitWrite))
    ensures Kept(l, origin, Next(l, s, CommitWrite))
  {
    CommitImage(l, s);
    CommitJournal(l, s);
    CommitNextOnDisk(l, Img(s), Effects(l, origin, s.journal), Effects(l, origin, s.journal[..s.committed]));
  }

  lemma {:induction false} CommitDoneKept(l: Layout, origin: Disk, s: State)
    requires Inv(l, origin, s) && Enabled(l, s, CommitDone) && Books(l, Next(l, s, CommitDone))
    ensures Kept(l, origin, Next(l, s, CommitDone))
  {
    assert s.journal[..|s.journal|] == s.journal;
    CommitDoneOnDisk(l, Img(s), Img(Next(l, s, CommitDone)),
                     Effects(l, origin, s.journal), Effects(l, origin, s.journal[..s.committed]));
  }

  lemma {:induction false} CrashKept(l: Layout, origin: Disk, s: State)
    requires Inv(l, origin, s) && Books(l, Next(l, s, Crash))
    ensures Kept(l, origin, Next(l, s, Crash))
  {
    var t := Next(l, s, Crash);
    RecoverableDisk(l, Img(s), Effects(l, origin, s.journal), Effects(l, origin, s.journal[..s.committed]));
    assert t.journal[..t.committed] == t.journal;
  }

  lemma {:induction false} RecoverOnDisk(l: Layout, s: Image, t: Image, all: Disk, kept: Disk)
    requires |all| == |kept| == l.size && LogShape(l, s) && LogShape(l, t)
    requires s.phase.Recovering? && s.phase.k < |l.Header(s.phase.base)| + 1 && OnDisk(l, s, all, kept)
    requires t.phase == Recovering(s.phase.k + 1, s.phase.base) && t.disk == RecoverStep(l, s.phase.base, s.phase.k + 1)
    ensures OnDisk(l, t, all, kept)
  {
  }

  lemma {:induction false} RecoveredOnDisk(l: Layout, s: Image, t: Image, all: Disk, kept: Disk)
    requires |all| == |kept| == l.size && LogShape(l, s) && LogShape(l, t)
    requires s.phase.Recovering? && s.phase.k == |l.Header(s.phase.base)| + 1 && OnDisk(l, s, all, kept)
    requires t.phase == Running && t.disk == s.disk && t.pinned == s.pinned
    ensures OnDisk(l, t, all, kept)
  {
  }

  lemma {:induction false} RecoverWriteKept(l: Layout, origin: Disk, s: State)
    requires Inv(l, origin, s) && Enabled(l, s, RecoverWrite) && Books(l, Next(l, s, RecoverWrite))
    ensures Kept(l, origin, Next(l, s, RecoverWrite))
  {
    RecoverOnDisk(l, Img(s), Img(Next(l, s, RecoverWrite)),
                  Effects(l, origin, s.journal), Effects(l, origin, s.journal[..s.committed]));
  }

  lemma {:induction false} RecoverDoneKept(l: Layout, origin: Disk, s: State)
    requires Inv(l, origin, s) && Enabled(l, s, RecoverDone) && Books(l, Next(l, s, RecoverDone))
    ensures Kept(l, origin, Next(l, s, RecoverDone))
  {
    RecoveredOnDisk(l, Img(s), Img(Next(l, s, RecoverDone)),
                    Effects(l, origin, s.journal), Effects(l, origin, s.journal[..s.committed]));
  }

  lemma {:induction false} QuietKept(l: Layout, origin: Disk, s: State, e: Event)
    requires Inv(l, origin, s) && Enabled(l, s, e) && (e.Begin? || e.SyncCall? || e.SyncReturn?)
    requires LogShape(l, Img(Next(l, s, e)))
    ensures Next(l, s, e).journal == s.journal && Next(l, s, e).committed == s.committed
    ensures Kept(l, origin, Next(l, s, e))
  {
    assert Img(Next(l, s, e)) == Img(s);
  }

  lemma {:induction false} OpKept(l: Layout, origin: Disk, s: State, e: Event)
    requires Inv(l, origin, s) && Enabled(l, s, e) && Books(l, Next(l, s, e))
    requires e.Begin? || e.LogWrite? || e.End? || e.SyncCall? || e.SyncReturn?
    ensures Kept(l, origin, Next(l, s, e))
  {
    match e
    case LogWrite(p, b, data) => LogWriteKept(l, origin, s, p, b, data);
    case End(p) => EndKept(l, origin, s, p);
    case _ => QuietKept(l, origin, s, e);
  }

  lemma {:induction false} DiskKept(l: Layout, origin: Disk, s: State, e: Event)
    requires Inv(l, origin, s) && Enabled(l, s, e) && Books(l, Next(l, s, e))
    requires e.CommitWrite? || e.CommitDone? || e.Crash? || e.RecoverWrite? || e.RecoverDone?
    ensures Kept(l, origin, Next(l, s, e))
  {
    match e
    case CommitWrite => CommitStepKept(l, origin, s);
    case CommitDone => CommitDoneKept(l, origin, s);
    case Crash => CrashKept(l, origin, s);
    case RecoverWrite => RecoverWriteKept(l, origin, s);
    case RecoverDone => RecoverDoneKept(l, origin, s);
  }

  /** Every step keeps the invariant. */
  lemma {:induction false} StepKeeps(l: Layout, origin: Disk, s: State, e: Event)
    requires Inv(l, origin, s) && Enabled(l, s, e)
    ensures Inv(l, origin, Next(l, s, e))
  {
    StepBooks(l, s, e);
    if e.Begin? || e.LogWrite? || e.End? || e.SyncCall? || e.SyncReturn? {
      OpKept(l, origin, s, e);
    } else {
      DiskKept(l, origin, s, e);
    }
  }

  ghost predicate Stepped(l: Layout, s: State, e: Event, t: State) {
    Shape(l, s) && Enabled(l, s, e) && t == Next(l, s, e)
  }

  /** `ss` are the successive states of a run of the events `es` from boot on disk `d`. */
  ghost predicate IsRun(l: Layout, d: Disk, es: seq<Event>, ss: seq<State>) {
    && |ss| == |es| + 1 && ss[0] == Boot(l, d)
    && forall i {:trigger es[i]} :: 0 <= i < |es| ==> Stepped(l, ss[i], es[i], ss[i + 1])
  }

  ghost predicate Reachable(l: Layout, d: Disk, s: State) {
    exists es, ss :: IsRun(l, d, es, ss) && ss[|es|] == s
  }

  lemma {:induction false} BootInv(l: Layout, d: Disk)
    requires l.Wf(d)
    ensures Inv(l, Recovered(l, d), Boot(l, d))
  {
    AllOut(NPROC);
  }

  lemma {:induction false} SteppedKeeps(l: Layout, origin: Disk, s: State, e: Event, t: State)
    requires Inv(l, origin, s) && Stepped(l, s, e, t)
    ensures Inv(l, origin, t)
  {
    StepKeeps(l, origin, s, e);
  }

  lemma {:induction false} RunInv(l: Layout, d: Disk, origin: Disk, es: seq<Event>, ss: seq<State>, k: nat)
    requires IsRun(l, d, es, ss) && k <= |es| && Inv(l, origin, ss[0])
    ensures Inv(l, origin, ss[k])
    decreases k
  {
    if k > 0 {
      RunInv(l, d, origin, es, ss, k - 1);
      SteppedKeeps(l, origin, ss[k - 1], es[k - 1], ss[k]);
    }
  }

  /** The invariant holds in every reachable state. */
  lemma {:induction false} ReachableInv(l: Layout, d: Disk, s: State)
    requires l.Wf(d) && Reachable(l, d, s)
    ensures Inv(l, Recovered(l, d), s)
  {
    var es, ss :| IsRun(l, d, es, ss) && ss[|es|] == s;
    BootInv(l, d);
    RunInv(l, d, Recovered(l, d), es, ss, |es|);
  }

  lemma {:induction false} Extend(l: Layout, d: Disk, s: State, e: Event)
    requires Reachable(l, d, s) && Shape(l, s) && Enabled(l, s, e)
    ensures Reachable(l, d, Next(l, s, e))
  {
    var es, ss :| IsRun(l, d, es, ss) && ss[|es|] == s;
    var t := Next(l, s, e);
    assert IsRun(l, d, es + [e], ss + [t]);
    assert (ss + [t])[|es + [e]|] == t;
  }

  /** Crash consistency of every run: a crash now, followed by recovery, leaves exactly the
      effect of the committed writes. */
  lemma {:induction false} CrashConsistency(l: Layout, d: Disk, s: State)
    requires l.Wf(d) && Reachable(l, d, s)
    ensures l.Wf(s.disk) && AllAt(l, s.journal) && s.committed <= |s.journal|
    ensures l.SameHome(Recovered(l, s.disk), Effects(l, Recovered(l, d), s.journal[..s.committed]))
  {
    ReachableInv(l, d, s);
    var o := Recovered(l, d);
    RecoverableDisk(l, Img(s), Effects(l, o, s.journal), Effects(l, o, s.journal[..s.committed]));
  }

  /** No operation is split by the commit line: its writes are all before it or all after
      it, and only operations that have ended are before it. */
  lemma {:induction false} OperationsCommitWhole(l: Layout, d: Disk, s: State)
    requires l.Wf(d) && Reachable(l, d, s)
    ensures s.committed <= |s.journal|
    ensures forall i :: 0 <= i < s.committed ==> s.journal[i].op in s.ended
    ensures forall i, j :: 0 <= i < |s.journal| && 0 <= j < |s.journal| && s.journal[i].op == s.journal[j].op ==>
              (i < s.committed <==> j < s.committed)
  {
    ReachableInv(l, d, s);
  }

  /** What one step does to the committed writes: nothing, unless it is the commit's header
      write, which commits everything, with no operation under way. */
  lemma {:induction false} CommittedStep(l: Layout, s: State, e: Event, t: State)
    requires Books(l, s) && Stepped(l, s, e, t) && Books(l, t)
    ensures t.journal[..t.committed] == s.journal[..s.committed]
            || (t.outstanding == 0 && t.journal[..t.committed] == t.journal)
  {
    if e.CommitWrite? {
      CommitJournal(l, s);
      TakeAll(t.journal);
    }
  }

  /** What is committed in state `k` of a run is everything that was logged up to some earlier
      state `j` in which no operation was under way. */
  lemma {:induction false} CommittedWhenQuiet(l: Layout, d: Disk, es: seq<Event>, ss: seq<State>, k: nat)
    returns (j: nat)
    requires l.Wf(d) && IsRun(l, d, es, ss) && k < |ss|
    ensures j <= k && ss[j].outstanding == 0 && ss[k].committed <= |ss[k].journal|
    ensures ss[j].journal == ss[k].journal[..ss[k].committed]
    decreases k
  {
    if k == 0 {
      j := 0;
    } else {
      j := CommittedWhenQuiet(l, d, es, ss, k - 1);
      var more := CommittedNext(l, d, es, ss, k - 1);
      if more {
        j := k;
      }
    }
  }

  lemma {:induction false} CommittedNext(l: Layout, d: Disk, es: seq<Event>, ss: seq<State>, k: nat)
    returns (more: bool)
    requires l.Wf(d) && IsRun(l, d, es, ss) && k < |es|
    ensures ss[k].committed <= |ss[k].journal| && ss[k + 1].committed <= |ss[k + 1].journal|
    ensures if more then ss[k + 1].outstanding == 0 && ss[k + 1].journal[..ss[k + 1].committed] == ss[k + 1].journal
            else ss[k + 1].journal[..ss[k + 1].committed] == ss[k].journal[..ss[k].committed]
  {
    BootInv(l, d);
    RunInv(l, d, Recovered(l, d), es, ss, k);
    RunInv(l, d, Recovered(l, d), es, ss, k + 1);
    CommittedStep(l, ss[k], es[k], ss[k + 1]);
    more := ss[k + 1].journal[..ss[k + 1].committed] != ss[k].journal[..ss[k].committed];
  }

  /** The home blocks are what all log_writes up to state `j` make them. */
  ghost predicate AsOf(l: Layout, d: Disk, ss: seq<State>, j: nat, e: Disk) {
    && j < |ss| && |d| == |e| == l.size && AllAt(l, ss[j].journal)
    && l.SameHome(e, Effects(l, d, ss[j].journal))
  }

  /** A crash takes the file system back to a moment between operations: recovery leaves the
      home blocks as they were, to every reader, at some earlier moment of the run at which no
      operation was under way. So what every operation keeps, a crash keeps. */
  lemma {:induction false} CrashToQuietMoment(l: Layout, d: Disk, es: seq<Event>, ss: seq<State>, k: nat)
    returns (j: nat)
    requires l.Wf(d) && IsRun(l, d, es, ss) && k < |ss|
    ensures j <= k && ss[j].outstanding == 0 && l.Wf(ss[k].disk)
    ensures AsOf(l, Recovered(l, d), ss, j, Recovered(l, ss[k].disk))
  {
    j := CommittedWhenQuiet(l, d, es, ss, k);
    BootInv(l, d);
    RunInv(l, d, Recovered(l, d), es, ss, k);
    var s, o := ss[k], Recovered(l, d);
    RecoverableDisk(l, Img(s), Effects(l, o, s.journal), Effects(l, o, s.journal[..s.committed]));
  }

  /** An invariant that holds of the home blocks whenever no operation is under way holds after
      a crash at any time and recovery. */
  lemma {:induction false} InvariantSurvives(
    l: Layout, d: Disk, es: seq<Event>, ss: seq<State>, k: nat, good: Disk -> bool)
    requires l.Wf(d) && IsRun(l, d, es, ss) && k < |ss|
    requires forall j: nat, e: Disk :: j < |ss| && ss[j].outstanding == 0 && AsOf(l, Recovered(l, d), ss, j, e) ==>
               good(e)
    ensures l.Wf(ss[k].disk) && good(Recovered(l, ss[k].disk))
  {
    var j := CrashToQuietMoment(l, d, es, ss, k);
  }

  lemma {:induction false} BooksHold(l: Layout, d: Disk, s: State)
    requires l.Wf(d) && Reachable(l, d, s)
    ensures Books(l, s)
  {
    ReachableInv(l, d, s);
  }

  lemma {:induction false} WaiterServed(l: Layout, s: State, p: nat)
    requires Grouped(l, s) && Waiting(s) && Enabled(l, s, SyncReturn(p))
    ensures forall i :: 0 <= i < |s.journal| && s.journal[i].op in s.syncs[p].need ==> i < s.committed
  {
  }

  lemma {:induction false} NothingToSync(l: Layout, s: State, p: nat)
    requires Books(l, s) && Enabled(l, s, SyncCall(p)) && !s.phase.Committing? && s.outstanding <= 0
    ensures s.committed == |s.journal|
  {
    AllEnded(l, s);
    if s.journal != [] {
      assert s.journal[|s.journal| - 1].op in s.safe;
    }
  }

  /** Durability of `sys_sync`: when it returns, every write of every operation that had
      ended before the call is committed. */
  lemma {:induction false} SyncDurability(l: Layout, d: Disk, s: State, p: nat)
    requires l.Wf(d) && Reachable(l, d, s)
    ensures Shape(l, s)
    ensures Enabled(l, s, SyncReturn(p)) ==>
              forall i :: 0 <= i < |s.journal| && s.journal[i].op in s.syncs[p].need ==> i < s.committed
    ensures Enabled(l, s, SyncCall(p)) && p !in Next(l, s, SyncCall(p)).syncs ==> s.committed == |s.journal|
  {
    BooksHold(l, d, s);
    if Enabled(l, s, SyncReturn(p)) {
      WaiterServed(l, s, p);
    }
    if Enabled(l, s, SyncCall(p)) && !s.phase.Committing? && s.outstanding <= 0 {
      NothingToSync(l, s, p);
    }
  }

  /** The code of `LogSystem` takes these steps: the disk after the k-th write of its
      `Commit` is the disk after step CommitWrite number k. */
  lemma {:induction false} CommitTakesSteps(l: Layout, d: Disk, s: State)
    requires l.Wf(d) && Reachable(l, d, s) && Enabled(l, s, CommitWrite)
    ensures Shape(l, s) && s.phase.k < |CommitTrace(l, s.phase.base, s.lh, Values(s.pinned, s.lh))|
    ensures Next(l, s, CommitWrite).disk == CommitTrace(l, s.phase.base, s.lh, Values(s.pinned, s.lh))[s.phase.k]
  {
    ReachableShape(l, d, s);
    CommitImage(l, s);
    TraceAt(l, s.phase.base, s.lh, s.pinned, s.phase.k);
  }

  lemma {:induction false} TraceAt(l: Layout, base: Disk, lh: seq<nat>, pinned: map<nat, Block>, k: nat)
    requires l.Wf(base) && |lh| <= LOGBLOCKS && l.AllHome(lh) && k < 2 * |lh| + 2 && forall b :: b in lh ==> b in pinned
    ensures k < |CommitTrace(l, base, lh, Values(pinned, lh))|
    ensures CommitTrace(l, base, lh, Values(pinned, lh))[k] == DiskAt(l, base, lh, pinned, k + 1)
  {
    DiskAtIs(l, base, lh, pinned, k + 1);
    CommitTraceSteps(l, base, lh, Values(pinned, lh));
  }

  /** Likewise for `RecoverFromLog`. */
  lemma {:induction false} RecoverTakesSteps(l: Layout, d: Disk, s: State)
    requires l.Wf(d) && Reachable(l, d, s) && Enabled(l, s, RecoverWrite)
    ensures Shape(l, s) && s.phase.k < |RecoverTrace(l, s.phase.base)|
    ensures Next(l, s, RecoverWrite).disk == RecoverTrace(l, s.phase.base)[s.phase.k]
  {
    ReachableShape(l, d, s);
    RecoverTraceAt(l, s.phase.base, s.phase.k);
  }

  lemma {:induction false} RecoverTraceAt(l: Layout, base: Disk, k: nat)
    requires l.Wf(base) && k < |l.Header(base)| + 1
    ensures k < |RecoverTrace(l, base)| && RecoverTrace(l, base)[k] == RecoverStep(l, base, k + 1)
  {
    RecoverTraceSteps(l, base);
  }

  /** An operation within its budget finds the log in use and not committing; and the
      "too big a transaction" panic strikes it exactly when the log is full and the block
      was already logged: a newly added block always finds room. */
  lemma {:induction false} PanicExactlyWhenAbsorbedIntoFullLog(l: Layout, d: Disk, s: State, p: nat, b: nat)
    requires l.Wf(d) && Reachable(l, d, s) && InBudget(s, p, b)
    ensures s.phase.Running? && s.outstanding >= 1
    ensures |s.lh| >= LOGBLOCKS <==> b in s.lh && |s.lh| == LOGBLOCKS
  {
    ReachableInv(l, d, s);
    ActiveZero(s.slots, p);
    if b !in s.lh {
      SlackUpdate(s.slots, p, Out);
    }
  }

  // ---------------------------------------------------------------- the full log is reachable

  lemma {:induction false} ReachableShape(l: Layout, d: Disk, s: State)
    requires l.Wf(d) && Reachable(l, d, s)
    ensures Shape(l, s)
  {
    ReachableInv(l, d, s);
  }

  lemma {:induction false} LogOneMore(l: Layout, d: Disk, s: State, p: nat, bs: seq<nat>, m: nat, data: Block)
    returns (t: State)
    requires Reachable(l, d, s) && Shape(l, s)
    requires m < |bs| <= LOGBLOCKS && l.AllHome(bs) && NoDup(bs) && s.lh == bs[..m]
    requires p < |s.slots| && s.slots[p].In? && s.slots[p].added < MAXOPBLOCKS
    ensures Reachable(l, d, t)
    ensures t.lh == bs[..m + 1] && t.slots == s.slots[p := In(s.slots[p].id, s.slots[p].added + 1)]
  {
    t := Next(l, s, LogWrite(p, bs[m], data));
    Extend(l, d, s, LogWrite(p, bs[m], data));
  }

  /** Operation slot `p` logs `bs[m..m + k]`, one new block at a time. */
  lemma {:induction false} FillFrom(l: Layout, d: Disk, s: State, p: nat, bs: seq<nat>, m: nat, k: nat, data: Block)
    returns (t: State)
    requires l.Wf(d) && Reachable(l, d, s)
    requires m + k <= |bs| <= LOGBLOCKS && l.AllHome(bs) && NoDup(bs) && s.lh == bs[..m]
    requires p < |s.slots| && s.slots[p].In? && s.slots[p].added + k <= MAXOPBLOCKS
    ensures Reachable(l, d, t)
    ensures t.lh == bs[..m + k] && t.slots == s.slots[p := In(s.slots[p].id, s.slots[p].added + k)]
    decreases k
  {
    if k == 0 {
      t := s;
    } else {
      ReachableShape(l, d, s);
      var u := LogOneMore(l, d, s, p, bs, m, data);
      t := FillFrom(l, d, u, p, bs, m + 1, k - 1, data);
    }
  }

  lemma {:induction false} Booted(l: Layout, d: Disk) returns (s: State)
    requires l.Wf(d) && l.Header(d) == []
    ensures Reachable(l, d, s) && s.phase.Running? && s.lh == [] && s.outstanding == 0
    ensures s.slots == seq(NPROC, _ => Out)
  {
    var b := Boot(l, d);
    var none: seq<Event> := [];
    assert IsRun(l, d, none, [b]) && [b][|none|] == b;
    AllOut(NPROC);
    var r := Next(l, b, RecoverWrite);
    Extend(l, d, b, RecoverWrite);
    s := Next(l, r, RecoverDone);
    Extend(l, d, r, RecoverDone);
  }

  lemma {:induction false} BeginOne(l: Layout, d: Disk, s: State, p: nat) returns (t: State)
    requires l.Wf(d) && Reachable(l, d, s) && s.phase.Running? && s.lh == []
    requires p < |s.slots| && s.slots[p].Out? && s.outstanding >= 0 && (s.outstanding + 1) * MAXOPBLOCKS <= LOGBLOCKS
    ensures Reachable(l, d, t) && t.phase.Running? && t.lh == []
    ensures t.outstanding == s.outstanding + 1 && t.slots == s.slots[p := In(s.nextId, 0)]
  {
    ReachableInv(l, d, s);
    t := Next(l, s, Begin(p));
    Extend(l, d, s, Begin(p));
  }

  /** The failing case does happen: three operations that each use exactly their budget
      fill the log, and then rewriting a block that is already logged panics. */
  lemma {:induction false} FullLogReachable(l: Layout, d: Disk, bs: seq<nat>, data: Block) returns (s: State)
    requires l.Wf(d) && l.Header(d) == [] && NPROC >= 3
    requires |bs| == LOGBLOCKS && l.AllHome(bs) && NoDup(bs)
    ensures Reachable(l, d, s) && InBudget(s, 2, bs[0]) && bs[0] in s.lh && |s.lh| == LOGBLOCKS
  {
    s := Booted(l, d);
    s := BeginOne(l, d, s, 0);
    s := BeginOne(l, d, s, 1);
    s := BeginOne(l, d, s, 2);
    s := FillFrom(l, d, s, 0, bs, 0, MAXOPBLOCKS, data);
    s := FillFrom(l, d, s, 1, bs, MAXOPBLOCKS, MAXOPBLOCKS, data);
    s := FillFrom(l, d, s, 2, bs, 2 * MAXOPBLOCKS, MAXOPBLOCKS, data);
    assert bs[..LOGBLOCKS] == bs;
  }
}
