/** The log (kernel/log.c) working through the buffer cache (kernel/bio.c), with processes
    getting, locking, changing and releasing buffers at the same time.

    Every call into the cache is one step, and so is every copy between two buffers, so a
    run is any interleaving. The steps carry the state of `LogProtocol` along: a block write
    by the log moves that machine too, and `Agree` says that the disk under the cache is the
    disk of that machine. */
module CachedLog {
  import opened Params
  import opened LogDisk
  import opened LogSystem
  import C = Bcache
  import P = LogProtocol

  const DEV: Pos                // log.dev

  /** Who holds a buffer's sleep lock or waits for it; `Kernel` is the process that commits
      or recovers. */
  datatype Who = Nobody | Proc(p: nat) | Kernel

  /** How far the log is with the next block write of a commit or a recovery: the header not
      read yet; nothing done; contents copied; written, but home block still pinned. */
  datatype Stage = Unread | Plain | Copied | Written

  /** The log, with the header that recovery read. */
  datatype Work = Work(log: P.State, head: seq<nat>, stage: Stage)

  /** `changed` are the buffers whose contents are not what was last logged or written. */
  datatype Sys = Sys(
    work: Work,
    m: C.Mem,
    holder: seq<Who>,
    waiting: seq<set<Who>>,
    changed: seq<bool>)

  datatype Step =
    | Get(who: Who, w: C.Where, b: nat)      // bget
    | Lock(who: Who, b: nat)                 // acquiresleep, and the rest of bread
    | Change(p: nat, b: nat, data: Block)
    | LogWrite(p: nat, b: nat)               // log_write
    | Release(who: Who, b: nat)              // brelse
    | Call(e: P.Event)                       // begin_op, end_op and sync
    | ReadHead(b: nat)                       // read_head
    | Copy(from: nat, to: nat)               // memmove, or filling in the header
    | WriteBack(to: nat)                     // bwrite
    | Unpin(b: nat)                          // bunpin
    | Finish                                 // the end of commit or recovery
    | Crash

  function At(b: nat): C.Where { (DEV, b) }

  // ---------------------------------------------------------------- the log's next write

  /** The block writes of a commit and of a recovery. */
  datatype Job = ToLog(t: nat) | Head(bs: seq<nat>) | Install(t: nat)

  function List(s: Work): seq<nat> {
    if s.log.phase.Recovering? then s.head else s.log.lh
  }

  function NextJob(s: Work): (j: Job)
    ensures !j.Head? ==> j.t < |List(s)|
    ensures j.Head? ==> j.bs == [] || j.bs == s.log.lh
  {
    var n := |List(s)|;
    match s.log.phase
    case Running => Head([])
    case Recovering(k, _) => if k < n then Install(k) else Head([])
    case Committing(k, _) =>
      if k < n then ToLog(k) else if k == n then Head(s.log.lh) else if k <= 2 * n then Install(k - n - 1) else Head([])
  }

  function From(l: Layout, s: Work): nat {
    match NextJob(s)
    case ToLog(t) => List(s)[t]
    case Head(_) => l.start
    case Install(t) => l.start + 1 + t
  }

  function To(l: Layout, s: Work): nat {
    match NextJob(s)
    case ToLog(t) => l.start + 1 + t
    case Head(_) => l.start
    case Install(t) => List(s)[t]
  }

  function WriteEvent(s: Work): P.Event {
    if s.log.phase.Recovering? then P.RecoverWrite else P.CommitWrite
  }

  function DoneEvent(s: Work): P.Event {
    if s.log.phase.Recovering? then P.RecoverDone else P.CommitDone
  }

  ghost predicate Busy(l: Layout, s: Work) { P.Enabled(l, s.log, WriteEvent(s)) }

  /** How many logged blocks have been installed and unpinned. */
  function Done(s: Work): (n: nat)
    ensures n <= |s.log.lh|
  {
    var n := |s.log.lh|;
    if !s.log.phase.Committing? || s.log.phase.k <= n + 1 then 0
    else
      var d := if s.log.phase.k <= 2 * n + 1 then s.log.phase.k - n - 1 else n;
      if s.stage.Written? && d > 0 then d - 1 else d
  }

  /** The home block written last. */
  function Last(s: Work): nat {
    var n := |s.log.lh|;
    if s.log.phase.Committing? && n + 2 <= s.log.phase.k <= 2 * n + 1 then s.log.lh[s.log.phase.k - n - 2] else 0
  }

  /** Block `w` is logged and not yet installed and unpinned. */
  predicate Unsaved(s: Work, w: C.Where) {
    w.0 == DEV && w.1 in s.log.lh[Done(s)..]
  }

  predicate InOp(s: Work, who: Who) {
    who.Proc? && who.p < |s.log.slots| && s.log.slots[who.p].In?
  }

  // ---------------------------------------------------------------- the invariant

  /** What `LogProtocol` knows of the log's state. */
  ghost predicate Facts(l: Layout, log: P.State) {
    && P.Shape(l, log)
    && (!log.phase.Running? ==> forall p :: 0 <= p < |log.slots| ==> log.slots[p].Out?)
    && match log.phase {
         case Running => true
         case Committing(k, base) =>
           && k <= 2 * |log.lh| + 2 && (log.lh == [] ==> k == 0)
           && log.disk == P.DiskAt(l, base, log.lh, log.pinned, k)
         case Recovering(k, base) => k <= |l.Header(base)| + 1 && log.disk == RecoverStep(l, base, k)
       }
  }

  ghost predicate StageOk(l: Layout, s: Work)
    requires s.log.phase.Recovering? ==> l.Wf(s.log.phase.base)
  {
    match s.stage
    case Unread => s.log.phase.Recovering? && s.log.phase.k == 0
    case Plain => s.log.phase.Recovering? ==> s.head == l.Header(s.log.phase.base)
    case Copied => Busy(l, s) && (s.log.phase.Recovering? ==> s.head == l.Header(s.log.phase.base))
    case Written => s.log.phase.Committing? && |s.log.lh| + 2 <= s.log.phase.k <= 2 * |s.log.lh| + 1
  }

  ghost predicate Shaped(s: Sys) {
    C.Sized(s.m) && |s.holder| == |s.waiting| == |s.changed| == C.NBUF
  }

  /** The users of a buffer are who holds it and who waits for it. */
  ghost predicate RefOk(s: Sys, b: nat)
    requires Shaped(s) && b < C.NBUF
  {
    && s.m.k.users[b] == |s.waiting[b]| + (if s.holder[b].Nobody? then 0 else 1) && Nobody !in s.waiting[b]
    && (s.m.k.users[b] > 0 ==> s.m.bufs[b].dev != 0)
    && (!s.holder[b].Nobody? ==> s.m.bufs[b].valid)
  }

  /** A buffer is pinned exactly once when its block is logged and not yet installed, and
      otherwise not at all. */
  ghost predicate PinOk(s: Sys, b: nat)
    requires Shaped(s) && b < C.NBUF
  {
    s.m.k.pins[b] == if Unsaved(s.work, C.Addr(s.m.bufs[b])) then 1 else 0
  }

  /** A buffer that differs from the disk is pinned or its holder is not done with it. */
  ghost predicate DirtyOk(s: Sys, b: nat)
    requires Shaped(s) && b < C.NBUF
  {
    C.Dirty(s.m.k, s.m.bufs[b]) ==> s.m.k.pins[b] > 0 || s.changed[b]
  }

  /** Only an operation under way, and the log for its next write, hold changed buffers. */
  ghost predicate ChangedOk(l: Layout, s: Sys, b: nat)
    requires Shaped(s) && b < C.NBUF
  {
    s.changed[b] ==>
      && s.m.bufs[b].dev == DEV
      && (if s.holder[b].Kernel? then s.work.stage.Copied? && s.m.bufs[b].blockno == To(l, s.work)
          else InOp(s.work, s.holder[b]) && l.Home(s.m.bufs[b].blockno))
  }

  ghost predicate BufInv(l: Layout, s: Sys, b: nat)
    requires Shaped(s) && b < C.NBUF
  {
    RefOk(s, b) && PinOk(s, b) && DirtyOk(s, b) && ChangedOk(l, s, b)
  }

  /** The disk under the cache is the disk of `LogProtocol`. */
  ghost predicate Agree(l: Layout, s: Sys, b: nat)
    requires |s.work.log.disk| == l.size && b < l.size && Shaped(s)
  {
    At(b) in s.m.k.disk && At(b) in s.m.k.latest && s.m.k.disk[At(b)] == s.work.log.disk[b]
    && |s.m.k.latest[At(b)]| == WORDS
  }

  ghost predicate Touched(s: Sys, w: C.Where)
    requires Shaped(s)
  {
    w in s.m.k.at && s.m.k.at[w] < C.NBUF && s.changed[s.m.k.at[w]]
  }

  /** A logged block is cached until it is unpinned, and unless its holder is about to log it
      again, its latest contents are what was logged. */
  ghost predicate LogOk(s: Sys, i: nat)
    requires Shaped(s) && i < |s.work.log.lh|
  {
    var w := At(s.work.log.lh[i]);
    && (Done(s.work) <= i ==> w in s.m.k.at)
    && s.work.log.lh[i] in s.work.log.pinned && w in s.m.k.latest
    && (Touched(s, w) || s.m.k.latest[w] == s.work.log.pinned[s.work.log.lh[i]])
  }

  /** What the log is about to write. */
  ghost function Data(l: Layout, s: Work): Block
    requires l.Valid() && |s.log.disk| == l.size && |List(s)| <= LOGBLOCKS
  {
    match NextJob(s)
    case ToLog(t) => if s.log.lh[t] in s.log.pinned then s.log.pinned[s.log.lh[t]] else s.log.disk[0]
    case Head(bs) => HeadWith(s.log.disk[l.start], bs)
    case Install(t) => s.log.disk[l.start + 1 + t]
  }

  /** Once copied, the target buffer has what the log is about to write; once written, the
      disk has what the home block holds. */
  ghost predicate TargetOk(l: Layout, s: Sys)
    requires l.Valid() && |s.work.log.disk| == l.size && Shaped(s)
  {
    && (s.work.stage.Copied? ==>
          var w := At(To(l, s.work));
          && w in s.m.k.at && s.m.k.at[w] < C.NBUF && s.changed[s.m.k.at[w]] && s.holder[s.m.k.at[w]].Kernel?
          && |List(s.work)| <= LOGBLOCKS && w in s.m.k.latest
          && s.m.k.latest[w] == Data(l, s.work))
    && (s.work.stage.Written? ==>
          var w := At(Last(s.work));
          w in s.m.k.disk && w in s.m.k.latest && s.m.k.disk[w] == s.m.k.latest[w])
  }

  ghost predicate Bufs(l: Layout, s: Sys)
    requires Shaped(s)
  {
    forall b :: 0 <= b < C.NBUF ==> BufInv(l, s, b)
  }

  ghost predicate Disks(l: Layout, s: Sys)
    requires Shaped(s) && |s.work.log.disk| == l.size
  {
    forall b :: 0 <= b < l.size ==> Agree(l, s, b)
  }

  ghost predicate Logs(s: Sys)
    requires Shaped(s)
  {
    forall i :: 0 <= i < |s.work.log.lh| ==> LogOk(s, i)
  }

  ghost predicate Inv(l: Layout, s: Sys) {
    && Facts(l, s.work.log) && Shaped(s) && C.MemOk(s.m) && StageOk(l, s.work) && TargetOk(l, s)
    && Bufs(l, s) && Disks(l, s) && Logs(s)
  }

  // ---------------------------------------------------------------- the steps

  /** A process changes only home blocks, inside an operation, logs a changed buffer before
      it releases it, and releases its buffers before it ends the operation. */
  ghost predicate Enabled(l: Layout, s: Sys, step: Step)
    requires Shaped(s)
  {
    match step
    case Get(who, w, b) =>
      && b < C.NBUF && who != Nobody && who !in s.waiting[b] && w.0 != 0 && w in s.m.k.disk
      && (if w in s.m.k.at then b == s.m.k.at[w] else s.m.bufs[b].refcnt == 0)
    case Lock(who, b) => b < C.NBUF && who in s.waiting[b] && s.holder[b] == Nobody
    case Change(p, b, _) =>
      && b < C.NBUF && s.holder[b] == Proc(p) && InOp(s.work, Proc(p))
      && s.m.bufs[b].dev == DEV && l.Home(s.m.bufs[b].blockno)
    case LogWrite(p, b) =>
      && b < C.NBUF && s.holder[b] == Proc(p) && s.m.bufs[b].dev == DEV && |s.m.bufs[b].data| == WORDS
      && P.Enabled(l, s.work.log, P.LogWrite(p, s.m.bufs[b].blockno, s.m.bufs[b].data))
    case Release(who, b) => b < C.NBUF && who != Nobody && s.holder[b] == who && !s.changed[b]
    case Call(e) =>
      && P.Enabled(l, s.work.log, e) && (e.Begin? || e.End? || e.SyncCall? || e.SyncReturn?)
      && (e.End? ==> forall b :: 0 <= b < C.NBUF && s.changed[b] ==> s.holder[b] != Proc(e.p))
    case ReadHead(b) =>
      && b < C.NBUF && s.work.stage.Unread? && s.holder[b] == Kernel && C.Addr(s.m.bufs[b]) == At(l.start)
    case Copy(from, to) =>
      && from < C.NBUF && to < C.NBUF && s.work.stage.Plain? && Busy(l, s.work)
      && s.holder[from] == s.holder[to] == Kernel
      && C.Addr(s.m.bufs[from]) == At(From(l, s.work)) && C.Addr(s.m.bufs[to]) == At(To(l, s.work))
    case WriteBack(to) =>
      && to < C.NBUF && s.work.stage.Copied? && Busy(l, s.work) && s.holder[to] == Kernel
      && C.Addr(s.m.bufs[to]) == At(To(l, s.work))
    case Unpin(b) =>
      && b < C.NBUF && s.work.stage.Written? && s.holder[b] == Kernel
      && C.Addr(s.m.bufs[b]) == At(Last(s.work))
    case Finish => s.work.stage.Plain? && P.Enabled(l, s.work.log, DoneEvent(s.work))
    case Crash => true
  }

  ghost function Got(s: Sys, who: Who, w: C.Where, b: nat): Sys
    requires Shaped(s) && b < C.NBUF
  {
    s.(m := if w in s.m.k.at then C.Counted(s.m, b, 1, 0) else C.Recycled(s.m, b, w),
       waiting := s.waiting[b := s.waiting[b] + {who}])
  }

  ghost function Locked(s: Sys, who: Who, b: nat): Sys
    requires Shaped(s) && b < C.NBUF
  {
    s.(m := C.Filled(s.m, b), waiting := s.waiting[b := s.waiting[b] - {who}], holder := s.holder[b := who])
  }

  ghost function Changed(s: Sys, b: nat, data: seq<nat>): Sys
    requires Shaped(s) && b < C.NBUF
  {
    s.(m := C.Modified(s.m, b, data), changed := s.changed[b := true])
  }

  ghost function Logging(l: Layout, s: Sys, p: nat, b: nat): Sys
    requires Shaped(s) && P.Shape(l, s.work.log) && b < C.NBUF && |s.m.bufs[b].data| == WORDS
    requires P.Enabled(l, s.work.log, P.LogWrite(p, s.m.bufs[b].blockno, s.m.bufs[b].data))
  {
    var x := s.m.bufs[b];
    s.(work := s.work.(log := P.Next(l, s.work.log, P.LogWrite(p, x.blockno, x.data))),
       m := if x.blockno in s.work.log.lh then s.m else C.Counted(s.m, b, 0, 1),
       changed := s.changed[b := false])
  }

  ghost function Released(s: Sys, b: nat): Sys
    requires Shaped(s) && b < C.NBUF
  {
    s.(m := C.Counted(s.m, b, -1, 0), holder := s.holder[b := Nobody])
  }

  /** What the log puts into the target buffer. */
  function Contents(j: Job, data: seq<nat>): seq<nat> {
    if j.Head? && |j.bs| < |data| then [|j.bs|] + j.bs + data[1 + |j.bs|..] else data
  }

  ghost function Moved(s: Sys, from: nat, to: nat): Sys
    requires Shaped(s) && from < C.NBUF && to < C.NBUF
  {
    Changed(s, to, Contents(NextJob(s.work), s.m.bufs[from].data)).(work := s.work.(stage := Copied))
  }

  ghost function Wrote(l: Layout, s: Work): Work
    requires P.Shape(l, s.log) && Busy(l, s)
  {
    s.(log := P.Next(l, s.log, WriteEvent(s)),
       stage := if NextJob(s).Install? && s.log.phase.Committing? then Written else Plain)
  }

  ghost function Flushed(l: Layout, s: Sys, to: nat): Sys
    requires Shaped(s) && P.Shape(l, s.work.log) && Busy(l, s.work) && to < C.NBUF
  {
    s.(work := Wrote(l, s.work), m := C.Written(s.m, to), changed := s.changed[to := false])
  }

  ghost function Crashed(l: Layout, s: Sys): Sys
    requires P.Shape(l, s.work.log)
  {
    Sys(Work(P.Next(l, s.work.log, P.Crash), [], Unread), C.Booted(s.m.k.disk),
        seq(C.NBUF, _ => Nobody), seq(C.NBUF, _ => {}), seq(C.NBUF, _ => false))
  }

  ghost function Do(l: Layout, s: Sys, step: Step): Sys
    requires Shaped(s) && P.Shape(l, s.work.log) && Enabled(l, s, step)
  {
    match step
    case Get(who, w, b) => Got(s, who, w, b)
    case Lock(who, b) => Locked(s, who, b)
    case Change(_, b, data) => Changed(s, b, data)
    case LogWrite(p, b) => Logging(l, s, p, b)
    case Release(_, b) => Released(s, b)
    case Call(e) => s.(work := s.work.(log := P.Next(l, s.work.log, e)))
    case ReadHead(b) =>
      var h := s.m.bufs[b].data;
      s.(work := s.work.(head := if |h| == WORDS && h[0] < WORDS then h[1..1 + h[0]] else [], stage := Plain))
    case Copy(from, to) => Moved(s, from, to)
    case WriteBack(to) => Flushed(l, s, to)
    case Unpin(b) => s.(m := C.Counted(s.m, b, 0, -1), work := s.work.(stage := Plain))
    case Finish => s.(work := s.work.(log := P.Next(l, s.work.log, DoneEvent(s.work))))
    case Crash => Crashed(l, s)
  }

  // ---------------------------------------------------------------- the log's next write

  lemma {:induction false} FactsHold(l: Layout, d: Disk, log: P.State)
    requires l.Wf(d) && P.Reachable(l, d, log)
    ensures Facts(l, log)
  {
    P.ReachableInv(l, d, log);
    forall p | 0 <= p < |log.slots| ensures !log.phase.Running? ==> log.slots[p].Out? {
      P.ActiveZero(log.slots, p);
    }
  }

  /** Disk `d` after write number `k` of a commit. */
  ghost function OneMore(l: Layout, d: Disk, bs: seq<nat>, vals: seq<Block>, k: nat): Disk
    requires l.Valid() && |d| == l.size && |bs| == |vals| <= LOGBLOCKS && l.AllHome(bs) && k < 2 * |bs| + 2
  {
    var n := |bs|;
    if k < n then d[l.start + 1 + k := vals[k]]
    else if k == n then d[l.start := HeadWith(d[l.start], bs)]
    else if k <= 2 * n then d[bs[k - n - 1] := d[l.start + k - n]]
    else d[l.start := HeadWith(d[l.start], [])]
  }

  lemma {:induction false} CommitJob(l: Layout, base: Disk, bs: seq<nat>, vals: seq<Block>, k: nat)
    requires l.Wf(base) && |bs| == |vals| <= LOGBLOCKS && l.AllHome(bs) && k < 2 * |bs| + 2 && bs != []
    ensures var d, n := CommitStep(l, base, bs, vals, k), |bs|;
            |d| == l.size && l.Valid() && CommitStep(l, base, bs, vals, k + 1) == OneMore(l, d, bs, vals, k)
  {
  }

  /** After the commit point the log area holds the logged contents. */
  lemma {:induction false} SlotsHold(l: Layout, base: Disk, bs: seq<nat>, vals: seq<Block>, k: nat, t: nat)
    requires l.Wf(base) && |bs| == |vals| <= LOGBLOCKS && l.AllHome(bs) && |bs| < k < 2 * |bs| + 2 && t < |bs|
    ensures var d := CommitStep(l, base, bs, vals, k); |d| == l.size && l.Valid() && d[l.start + 1 + t] == vals[t]
  {
  }

  lemma {:induction false} RecoverJob(l: Layout, base: Disk, k: nat)
    requires l.Wf(base) && k < |l.Header(base)| + 1
    ensures var d, n := RecoverStep(l, base, k), |l.Header(base)|;
            && |d| == l.size && l.Valid()
            && RecoverStep(l, base, k + 1) ==
               if k < n then d[l.Header(base)[k] := d[l.start + 1 + k]] else d[l.start := HeadWith(d[l.start], [])]
  {
  }

  /** The disk `e` is the log's disk with the next write done. */
  ghost predicate WritesNext(l: Layout, s: Work, e: Disk) {
    && l.Valid() && |s.log.disk| == l.size && |List(s)| <= LOGBLOCKS && To(l, s) < l.size
    && e == s.log.disk[To(l, s) := Data(l, s)]
  }

  ghost predicate Logged(log: P.State, vals: seq<Block>) {
    && |log.lh| == |vals| <= LOGBLOCKS
    && forall i :: 0 <= i < |vals| ==> log.lh[i] in log.pinned && vals[i] == log.pinned[log.lh[i]]
  }

  lemma {:induction false} CommitFacts(l: Layout, log: P.State) returns (vals: seq<Block>)
    requires Facts(l, log) && log.phase.Committing? && log.lh != []
    ensures l.Wf(log.phase.base) && l.AllHome(log.lh) && log.phase.k <= 2 * |log.lh| + 2 && Logged(log, vals)
    ensures log.disk == CommitStep(l, log.phase.base, log.lh, vals, log.phase.k)
    ensures vals == Values(log.pinned, log.lh)
  {
    vals := Values(log.pinned, log.lh);
    P.DiskAtIs(l, log.phase.base, log.lh, log.pinned, log.phase.k);
  }

  ghost predicate Commits(l: Layout, log: P.State, vals: seq<Block>) {
    && log.phase.Committing? && l.Valid() && |log.disk| == l.size && l.AllHome(log.lh) && Logged(log, vals)
    && log.phase.k < 2 * |log.lh| + 2
  }

  lemma {:induction false} DiskAtNext(l: Layout, base: Disk, lh: seq<nat>, pinned: map<nat, Block>, k: nat, d: Disk)
    requires l.Wf(base) && |lh| <= LOGBLOCKS && l.AllHome(lh) && lh != [] && k < 2 * |lh| + 2
    requires (forall b :: b in lh ==> b in pinned) && d == P.DiskAt(l, base, lh, pinned, k)
    ensures |d| == l.size && l.Valid()
    ensures P.DiskAt(l, base, lh, pinned, k + 1) == OneMore(l, d, lh, Values(pinned, lh), k)
  {
    P.DiskAtIs(l, base, lh, pinned, k);
    P.DiskAtIs(l, base, lh, pinned, k + 1);
    CommitJob(l, base, lh, Values(pinned, lh), k);
  }

  lemma {:induction false} CommitVals(l: Layout, log: P.State) returns (vals: seq<Block>)
    requires Facts(l, log) && log.phase.Committing? && P.Enabled(l, log, P.CommitWrite)
    ensures (forall b :: b in log.lh ==> b in log.pinned) && vals == Values(log.pinned, log.lh) && Commits(l, log, vals)
    ensures l.Wf(log.phase.base) && log.lh != []
    ensures log.disk == P.DiskAt(l, log.phase.base, log.lh, log.pinned, log.phase.k)
  {
    vals := Values(log.pinned, log.lh);
  }

  lemma {:induction false} CommitDisk(l: Layout, log: P.State, vals: seq<Block>)
    requires P.Shape(l, log) && P.Enabled(l, log, P.CommitWrite) && Commits(l, log, vals)
    requires (forall b :: b in log.lh ==> b in log.pinned) && vals == Values(log.pinned, log.lh)
    requires l.Wf(log.phase.base) && log.disk == P.DiskAt(l, log.phase.base, log.lh, log.pinned, log.phase.k)
    ensures P.Next(l, log, P.CommitWrite).disk == OneMore(l, log.disk, log.lh, vals, log.phase.k)
  {
    P.CommitImage(l, log);
    DiskAtNext(l, log.phase.base, log.lh, log.pinned, log.phase.k, log.disk);
  }

  lemma {:induction false} JobDisk(l: Layout, s: Work, vals: seq<Block>)
    requires Commits(l, s.log, vals)
    ensures WritesNext(l, s, OneMore(l, s.log.disk, s.log.lh, vals, s.log.phase.k))
  {
  }

  lemma {:induction false} CommitNext(l: Layout, s: Work)
    requires Facts(l, s.log) && s.log.phase.Committing? && P.Enabled(l, s.log, P.CommitWrite)
    ensures WritesNext(l, s, P.Next(l, s.log, P.CommitWrite).disk)
  {
    var vals := CommitVals(l, s.log);
    CommitDisk(l, s.log, vals);
    JobDisk(l, s, vals);
  }

  lemma {:induction false} InstallData(l: Layout, s: Work)
    requires NextJob(s).Install? && l.Valid() && |s.log.disk| == l.size && |List(s)| <= LOGBLOCKS
    ensures Data(l, s) == s.log.disk[l.start + 1 + NextJob(s).t]
  {
  }

  lemma {:induction false} SlotData(l: Layout, s: Work, vals: seq<Block>, t: nat)
    requires s.log.phase.Committing? && l.Wf(s.log.phase.base) && l.AllHome(s.log.lh) && Logged(s.log, vals)
    requires |vals| < s.log.phase.k < 2 * |vals| + 2 && t < |vals|
    requires s.log.disk == CommitStep(l, s.log.phase.base, s.log.lh, vals, s.log.phase.k)
    ensures l.Valid() && |s.log.disk| == l.size && s.log.lh[t] in s.log.pinned
    ensures s.log.disk[l.start + 1 + t] == s.log.pinned[s.log.lh[t]]
  {
    SlotsHold(l, s.log.phase.base, s.log.lh, vals, s.log.phase.k, t);
    assert vals[t] == s.log.pinned[s.log.lh[t]];
  }

  lemma {:induction false} InstallRange(s: Work)
    requires NextJob(s).Install? && s.log.phase.Committing?
    ensures |s.log.lh| < s.log.phase.k <= 2 * |s.log.lh| && NextJob(s).t < |s.log.lh| && List(s) == s.log.lh
  {
  }

  lemma {:induction false} InstallsWhat(l: Layout, s: Work, vals: seq<Block>)
    requires s.log.phase.Committing? && l.Wf(s.log.phase.base) && l.AllHome(s.log.lh) && Logged(s.log, vals)
    requires NextJob(s).Install? && s.log.phase.k <= 2 * |s.log.lh| + 2
    requires s.log.disk == CommitStep(l, s.log.phase.base, s.log.lh, vals, s.log.phase.k)
    ensures |List(s)| <= LOGBLOCKS && s.log.lh[NextJob(s).t] in s.log.pinned
    ensures l.Valid() && |s.log.disk| == l.size && Data(l, s) == s.log.pinned[s.log.lh[NextJob(s).t]]
  {
    InstallRange(s);
    SlotData(l, s, vals, NextJob(s).t);
    InstallData(l, s);
  }

  /** What is installed is what was logged. */
  lemma {:induction false} InstallsLogged(l: Layout, s: Work)
    requires Facts(l, s.log) && s.log.phase.Committing? && P.Enabled(l, s.log, P.CommitWrite) && NextJob(s).Install?
    ensures |List(s)| <= LOGBLOCKS && s.log.lh[NextJob(s).t] in s.log.pinned
    ensures l.Valid() && |s.log.disk| == l.size && Data(l, s) == s.log.pinned[s.log.lh[NextJob(s).t]]
  {
    var vals := CommitFacts(l, s.log);
    InstallsWhat(l, s, vals);
  }

  lemma {:induction false} RecoverFacts(l: Layout, log: P.State)
    requires Facts(l, log) && log.phase.Recovering? && P.Enabled(l, log, P.RecoverWrite)
    ensures l.Wf(log.phase.base) && log.phase.k < |l.Header(log.phase.base)| + 1
    ensures log.disk == RecoverStep(l, log.phase.base, log.phase.k)
    ensures P.Next(l, log, P.RecoverWrite).disk == RecoverStep(l, log.phase.base, log.phase.k + 1)
  {
  }

  lemma {:induction false} RecoverJobDisk(l: Layout, s: Work)
    requires s.log.phase.Recovering? && l.Wf(s.log.phase.base) && s.head == l.Header(s.log.phase.base)
    requires s.log.phase.k < |s.head| + 1 && s.log.disk == RecoverStep(l, s.log.phase.base, s.log.phase.k)
    ensures WritesNext(l, s, RecoverStep(l, s.log.phase.base, s.log.phase.k + 1))
  {
    RecoverJob(l, s.log.phase.base, s.log.phase.k);
  }

  lemma {:induction false} RecoverNext(l: Layout, s: Work)
    requires Facts(l, s.log) && s.log.phase.Recovering? && Busy(l, s) && s.head == l.Header(s.log.phase.base)
    ensures WritesNext(l, s, P.Next(l, s.log, P.RecoverWrite).disk)
  {
    RecoverFacts(l, s.log);
    RecoverJobDisk(l, s);
  }

  /** The next block write of `LogProtocol` puts `Data` into block `To`. */
  lemma {:induction false} NextWrite(l: Layout, s: Work)
    requires Facts(l, s.log) && StageOk(l, s) && (s.stage.Plain? || s.stage.Copied?) && Busy(l, s)
    ensures WritesNext(l, s, P.Next(l, s.log, WriteEvent(s)).disk)
  {
    if s.log.phase.Committing? {
      CommitNext(l, s);
    } else {
      RecoverNext(l, s);
    }
  }

  // ---------------------------------------------------------------- getting and locking

  /** An unsaved block is cached. */
  lemma {:induction false} UnsavedCached(s: Sys, w: C.Where)
    requires Shaped(s) && Logs(s) && Unsaved(s.work, w)
    ensures w in s.m.k.at
  {
    var i: nat :| Done(s.work) <= i < |s.work.log.lh| && s.work.log.lh[i] == w.1;
    assert LogOk(s, i);
  }

  lemma {:induction false} SharedBufs(l: Layout, s: Sys, who: Who, w: C.Where, b: nat)
    requires Shaped(s) && C.MemOk(s.m) && Bufs(l, s) && Enabled(l, s, Get(who, w, b)) && w in s.m.k.at
    ensures var t := Got(s, who, w, b); C.MemOk(t.m) && Bufs(l, t)
  {
    assert BufInv(l, s, b) && C.BufOk(s.m.k, s.m.bufs[b], b) && C.BlockOk(s.m.bufs, s.m.k, w);
    C.CountedOk(s.m, b, 1, 0);
    var t := Got(s, who, w, b);
    forall i | 0 <= i < C.NBUF ensures BufInv(l, t, i) {
      assert BufInv(l, s, i);
    }
  }

  lemma {:induction false} RecycledBufs(l: Layout, s: Sys, who: Who, w: C.Where, b: nat)
    requires Shaped(s) && C.MemOk(s.m) && Bufs(l, s) && Enabled(l, s, Get(who, w, b)) && w !in s.m.k.at
    requires !Unsaved(s.work, w)
    ensures var t := Got(s, who, w, b); C.MemOk(t.m) && Bufs(l, t)
  {
    assert BufInv(l, s, b) && C.BufOk(s.m.k, s.m.bufs[b], b);
    C.RecycledOk(s.m, b, w);
    assert s.waiting[b] == {};
    var t := Got(s, who, w, b);
    forall i | 0 <= i < C.NBUF ensures BufInv(l, t, i) {
      assert BufInv(l, s, i);
    }
  }

  /** A buffer that is not referred to is not changed. */
  lemma {:induction false} UnusedUnchanged(l: Layout, s: Sys, b: nat)
    requires Shaped(s) && C.MemOk(s.m) && Bufs(l, s) && b < C.NBUF && s.m.bufs[b].refcnt == 0
    ensures !s.changed[b] && !Unsaved(s.work, C.Addr(s.m.bufs[b]))
  {
    assert BufInv(l, s, b) && C.BufOk(s.m.k, s.m.bufs[b], b);
  }

  lemma {:induction false} GotLogs(l: Layout, s: Sys, who: Who, w: C.Where, b: nat)
    requires Shaped(s) && C.MemOk(s.m) && Bufs(l, s) && Logs(s) && Enabled(l, s, Get(who, w, b))
    ensures Logs(Got(s, who, w, b))
  {
    var t := Got(s, who, w, b);
    if w !in s.m.k.at {
      UnusedUnchanged(l, s, b);
    }
    assert C.BufOk(s.m.k, s.m.bufs[b], b);
    forall i | 0 <= i < |t.work.log.lh| ensures LogOk(t, i) {
      assert LogOk(s, i);
      var v := At(s.work.log.lh[i]);
      assert v in s.m.k.at ==> v in s.m.k.disk && C.BlockOk(s.m.bufs, s.m.k, v);
      assert Done(s.work) <= i ==> s.work.log.lh[Done(s.work)..][i - Done(s.work)] == v.1;
    }
  }

  lemma {:induction false} GotTarget(l: Layout, s: Sys, who: Who, w: C.Where, b: nat)
    requires Shaped(s) && C.MemOk(s.m) && Bufs(l, s) && Enabled(l, s, Get(who, w, b))
    requires l.Valid() && |s.work.log.disk| == l.size && TargetOk(l, s) && Disks(l, s)
    ensures TargetOk(l, Got(s, who, w, b)) && Disks(l, Got(s, who, w, b))
  {
    var t := Got(s, who, w, b);
    if w !in s.m.k.at {
      UnusedUnchanged(l, s, b);
    }
    assert C.BufOk(s.m.k, s.m.bufs[b], b);
    var v := At(To(l, s.work));
    assert v in s.m.k.at ==> v in s.m.k.disk && C.BlockOk(s.m.bufs, s.m.k, v);
    forall i | 0 <= i < l.size ensures Agree(l, t, i) {
      assert Agree(l, s, i);
    }
  }

  lemma {:induction false} GetKeeps(l: Layout, s: Sys, who: Who, w: C.Where, b: nat)
    requires Inv(l, s) && Enabled(l, s, Get(who, w, b))
    ensures Inv(l, Got(s, who, w, b))
  {
    GotLogs(l, s, who, w, b);
    GotTarget(l, s, who, w, b);
    if w in s.m.k.at {
      SharedBufs(l, s, who, w, b);
    } else {
      if Unsaved(s.work, w) {
        UnsavedCached(s, w);
      }
      RecycledBufs(l, s, who, w, b);
    }
  }

  // ---------------------------------------------------------------- steps on one buffer

  /** Only buffer `b`, and the contents of its block, differ between the two states. */
  ghost predicate Only(s: Sys, t: Sys, b: nat)
    requires Shaped(s) && Shaped(t) && b < C.NBUF
  {
    && t.m.k.at == s.m.k.at && C.Addr(t.m.bufs[b]) == C.Addr(s.m.bufs[b])
    && t.m.bufs == s.m.bufs[b := t.m.bufs[b]]
    && t.m.k.users == s.m.k.users[b := t.m.k.users[b]] && t.m.k.pins == s.m.k.pins[b := t.m.k.pins[b]]
    && t.holder == s.holder[b := t.holder[b]] && t.waiting == s.waiting[b := t.waiting[b]]
    && t.changed == s.changed[b := t.changed[b]]
    && t.m.k.disk.Keys == s.m.k.disk.Keys && t.m.k.latest.Keys == s.m.k.latest.Keys
    && (forall w :: w in s.m.k.disk && w != C.Addr(s.m.bufs[b]) ==> t.m.k.disk[w] == s.m.k.disk[w])
    && (forall w :: w in s.m.k.latest && w != C.Addr(s.m.bufs[b]) ==> t.m.k.latest[w] == s.m.k.latest[w])
  }

  lemma {:induction false} OtherBuf(l: Layout, s: Sys, t: Sys, b: nat, i: nat)
    requires Shaped(s) && Shaped(t) && C.MemOk(s.m) && b < C.NBUF && i < C.NBUF && i != b && Only(s, t, b)
    requires BufInv(l, s, i) && t.work == s.work && s.m.bufs[b].dev != 0
    ensures BufInv(l, t, i)
  {
    if s.m.bufs[i].dev != 0 && C.Addr(s.m.bufs[i]) == C.Addr(s.m.bufs[b]) {
      C.CachedOnce(s.m.bufs, s.m.k, i, b);
    }
  }

  lemma {:induction false} OneBuf(l: Layout, s: Sys, t: Sys, b: nat)
    requires Shaped(s) && Shaped(t) && C.MemOk(s.m) && Bufs(l, s) && b < C.NBUF && Only(s, t, b)
    requires t.work == s.work && s.m.bufs[b].dev != 0 && BufInv(l, t, b)
    ensures Bufs(l, t)
  {
    forall i | 0 <= i < C.NBUF ensures BufInv(l, t, i) {
      assert BufInv(l, s, i);
      if i != b {
        OtherBuf(l, s, t, b, i);
      }
    }
  }

  /** Nothing about the contents changes. */
  lemma {:induction false} SameContents(l: Layout, s: Sys, t: Sys)
    requires Shaped(s) && Shaped(t) && l.Valid() && |s.work.log.disk| == l.size
    requires Logs(s) && Disks(l, s) && TargetOk(l, s)
    requires t.work == s.work && t.changed == s.changed && t.m.k.at == s.m.k.at
    requires t.m.k.disk == s.m.k.disk && t.m.k.latest == s.m.k.latest
    requires forall b :: 0 <= b < C.NBUF && s.changed[b] ==> t.holder[b] == s.holder[b]
    ensures Logs(t) && Disks(l, t) && TargetOk(l, t)
  {
    forall i | 0 <= i < |t.work.log.lh| ensures LogOk(t, i) {
      assert LogOk(s, i);
    }
    forall i | 0 <= i < l.size ensures Agree(l, t, i) {
      assert Agree(l, s, i);
    }
  }

  lemma {:induction false} LockBufs(l: Layout, s: Sys, who: Who, b: nat)
    requires Shaped(s) && C.MemOk(s.m) && Bufs(l, s) && Enabled(l, s, Lock(who, b))
    ensures var t := Locked(s, who, b); C.MemOk(t.m) && Bufs(l, t)
  {
    assert BufInv(l, s, b) && C.BufOk(s.m.k, s.m.bufs[b], b);
    C.FilledOk(s.m, b);
    var t := Locked(s, who, b);
    assert Only(s, t, b);
    OneBuf(l, s, t, b);
  }

  lemma {:induction false} LockKeeps(l: Layout, s: Sys, who: Who, b: nat)
    requires Inv(l, s) && Enabled(l, s, Lock(who, b))
    ensures Inv(l, Locked(s, who, b))
  {
    LockBufs(l, s, who, b);
    assert BufInv(l, s, b);
    SameContents(l, s, Locked(s, who, b));
  }

  /** What brelse demands of its caller holds: a buffer that differs from the disk is pinned. */
  lemma {:induction false} ReleaseSafe(l: Layout, s: Sys, who: Who, b: nat)
    requires Shaped(s) && Bufs(l, s) && Enabled(l, s, Release(who, b))
    ensures s.m.k.users[b] > 0 && (C.Dirty(s.m.k, s.m.bufs[b]) ==> s.m.k.pins[b] > 0)
  {
    assert BufInv(l, s, b);
  }

  lemma {:induction false} ReleaseBufs(l: Layout, s: Sys, who: Who, b: nat)
    requires Shaped(s) && C.MemOk(s.m) && Bufs(l, s) && Enabled(l, s, Release(who, b))
    ensures var t := Released(s, b); C.MemOk(t.m) && Bufs(l, t)
  {
    ReleaseSafe(l, s, who, b);
    assert BufInv(l, s, b) && C.BufOk(s.m.k, s.m.bufs[b], b);
    C.CountedOk(s.m, b, -1, 0);
    var t := Released(s, b);
    assert Only(s, t, b);
    OneBuf(l, s, t, b);
  }

  lemma {:induction false} ReleaseKeeps(l: Layout, s: Sys, who: Who, b: nat)
    requires Inv(l, s) && Enabled(l, s, Release(who, b))
    ensures Inv(l, Released(s, b))
  {
    ReleaseBufs(l, s, who, b);
    SameContents(l, s, Released(s, b));
  }

  // ---------------------------------------------------------------- changing and logging

  /** Inside an operation the log is neither committing nor recovering. */
  lemma {:induction false} OpRunning(l: Layout, s: Work, who: Who)
    requires Facts(l, s.log) && StageOk(l, s) && InOp(s, who)
    ensures s.log.phase.Running? && s.stage.Plain? && Done(s) == 0
  {
  }

  lemma {:induction false} ChangeBufs(l: Layout, s: Sys, p: nat, b: nat, data: Block)
    requires Shaped(s) && C.MemOk(s.m) && Bufs(l, s) && Enabled(l, s, Change(p, b, data))
    ensures var t := Changed(s, b, data); C.MemOk(t.m) && Bufs(l, t)
  {
    assert BufInv(l, s, b) && C.BufOk(s.m.k, s.m.bufs[b], b);
    C.ModifiedOk(s.m, b, data);
    var t := Changed(s, b, data);
    assert Only(s, t, b);
    OneBuf(l, s, t, b);
  }

  /** Contents changed in one buffer, which is marked so. */
  lemma {:induction false} ChangedContents(l: Layout, s: Sys, b: nat, data: Block)
    requires Shaped(s) && C.MemOk(s.m) && Logs(s) && |s.work.log.disk| == l.size && Disks(l, s)
    requires b < C.NBUF && s.m.bufs[b].dev == DEV
    ensures var t := Changed(s, b, data); Logs(t) && Disks(l, t)
  {
    var t := Changed(s, b, data);
    assert C.BufOk(s.m.k, s.m.bufs[b], b);
    forall i | 0 <= i < |t.work.log.lh| ensures LogOk(t, i) {
      assert LogOk(s, i);
    }
    forall i | 0 <= i < l.size ensures Agree(l, t, i) {
      assert Agree(l, s, i);
    }
  }

  lemma {:induction false} ChangeKeeps(l: Layout, s: Sys, p: nat, b: nat, data: Block)
    requires Inv(l, s) && Enabled(l, s, Change(p, b, data))
    ensures Inv(l, Changed(s, b, data))
  {
    OpRunning(l, s.work, Proc(p));
    ChangeBufs(l, s, p, b, data);
    ChangedContents(l, s, b, data);
  }

  /** What log_write leaves of the log: one more block in the header, or the same. */
  lemma {:induction false} LogWriteWork(l: Layout, s: Sys, p: nat, b: nat)
    requires Facts(l, s.work.log) && Shaped(s) && StageOk(l, s.work) && Enabled(l, s, LogWrite(p, b))
    ensures var t, x := Logging(l, s, p, b), s.m.bufs[b];
            && Done(s.work) == Done(t.work) == 0 && s.work.stage == t.work.stage == Plain
            && t.work.log.phase == s.work.log.phase == P.Running
            && t.work.log.lh == Absorb(s.work.log.lh, x.blockno)
            && t.work.log.pinned == s.work.log.pinned[x.blockno := x.data]
            && t.work.log.disk == s.work.log.disk
            && forall who :: InOp(s.work, who) <==> InOp(t.work, who)
  {
    OpRunning(l, s.work, Proc(p));
  }

  lemma {:induction false} LoggingBufs(l: Layout, s: Sys, t: Sys, b: nat)
    requires Shaped(s) && C.MemOk(s.m) && Bufs(l, s) && Shaped(t) && b < C.NBUF
    requires s.m.bufs[b].dev == DEV && s.m.k.users[b] > 0
    requires Done(s.work) == Done(t.work) == 0 && s.work.stage == t.work.stage == Plain
    requires t.work.log.lh == Absorb(s.work.log.lh, s.m.bufs[b].blockno)
    requires forall who :: InOp(s.work, who) <==> InOp(t.work, who)
    requires t.holder == s.holder && t.waiting == s.waiting && t.changed == s.changed[b := false]
    requires t.m == if s.m.bufs[b].blockno in s.work.log.lh then s.m else C.Counted(s.m, b, 0, 1)
    ensures C.MemOk(t.m) && Bufs(l, t)
  {
    assert BufInv(l, s, b) && C.BufOk(s.m.k, s.m.bufs[b], b);
    C.CountedOk(s.m, b, 0, 1);
    forall i | 0 <= i < C.NBUF ensures BufInv(l, t, i) {
      assert BufInv(l, s, i);
      if s.m.bufs[i].dev != 0 && C.Addr(s.m.bufs[i]) == C.Addr(s.m.bufs[b]) {
        C.CachedOnce(s.m.bufs, s.m.k, i, b);
      }
    }
  }

  lemma {:induction false} LoggingLogs(s: Sys, t: Sys, b: nat)
    requires Shaped(s) && C.MemOk(s.m) && Logs(s) && Shaped(t) && b < C.NBUF
    requires s.m.bufs[b].dev == DEV && s.m.bufs[b].valid && |s.m.bufs[b].data| == WORDS
    requires Done(s.work) == Done(t.work) == 0
    requires t.work.log.lh == Absorb(s.work.log.lh, s.m.bufs[b].blockno)
    requires t.work.log.pinned == s.work.log.pinned[s.m.bufs[b].blockno := s.m.bufs[b].data]
    requires t.changed == s.changed[b := false] && t.m.k.at == s.m.k.at && t.m.k.latest == s.m.k.latest
    ensures Logs(t)
  {
    assert C.BufOk(s.m.k, s.m.bufs[b], b);
    forall i | 0 <= i < |t.work.log.lh| ensures LogOk(t, i) {
      if i < |s.work.log.lh| {
        assert LogOk(s, i);
      }
      var w := At(t.work.log.lh[i]);
      assert w in s.m.k.at ==> w in s.m.k.disk && C.BlockOk(s.m.bufs, s.m.k, w);
    }
  }

  lemma {:induction false} SameDisks(l: Layout, s: Sys, t: Sys)
    requires Shaped(s) && Shaped(t) && |s.work.log.disk| == l.size && Disks(l, s)
    requires t.work.log.disk == s.work.log.disk && t.m.k.disk == s.m.k.disk && t.m.k.latest == s.m.k.latest
    ensures Disks(l, t)
  {
    forall i | 0 <= i < l.size ensures Agree(l, t, i) {
      assert Agree(l, s, i);
    }
  }

  lemma {:induction false} LogWriteKeeps(l: Layout, s: Sys, p: nat, b: nat)
    requires Inv(l, s) && Enabled(l, s, LogWrite(p, b)) && Facts(l, Logging(l, s, p, b).work.log)
    ensures Inv(l, Logging(l, s, p, b))
  {
    var t := Logging(l, s, p, b);
    LogWriteWork(l, s, p, b);
    assert BufInv(l, s, b);
    LoggingBufs(l, s, t, b);
    LoggingLogs(s, t, b);
    SameDisks(l, s, t);
  }

  // ---------------------------------------------------------------- steps of the log alone

  /** Nothing about the log matters to the buffers but which blocks are unsaved, and who may
      have changed a buffer. */
  lemma {:induction false} WorkBufs(l: Layout, s: Sys, t: Sys)
    requires Shaped(s) && Shaped(t) && Bufs(l, s)
    requires t == s.(work := t.work) && (forall w :: Unsaved(s.work, w) <==> Unsaved(t.work, w))
    requires forall b :: 0 <= b < C.NBUF ==> ChangedOk(l, t, b)
    ensures Bufs(l, t)
  {
    forall i | 0 <= i < C.NBUF ensures BufInv(l, t, i) {
      assert BufInv(l, s, i);
    }
  }

  lemma {:induction false} WorkLogs(s: Sys, t: Sys)
    requires Shaped(s) && Shaped(t) && Logs(s) && t == s.(work := t.work)
    requires t.work.log.lh == s.work.log.lh && t.work.log.pinned == s.work.log.pinned && Done(s.work) <= Done(t.work)
    ensures Logs(t)
  {
    forall i | 0 <= i < |t.work.log.lh| ensures LogOk(t, i) {
      assert LogOk(s, i);
    }
  }

  /** What begin_op, end_op and sync leave of the log. */
  lemma {:induction false} CallLog(l: Layout, log: P.State, e: P.Event)
    requires P.Shape(l, log) && P.Enabled(l, log, e) && (e.Begin? || e.End? || e.SyncCall? || e.SyncReturn?)
    ensures var t := P.Next(l, log, e);
            && t.lh == log.lh && t.pinned == log.pinned && t.disk == log.disk && |t.slots| == |log.slots|
            && (t.phase == log.phase || (log.phase.Running? && t.phase == P.Committing(0, log.disk)))
            && forall p :: 0 <= p < |log.slots| && log.slots[p].In? && !(e.End? && p == e.p) ==> t.slots[p].In?
  {
    if e.End? {
      P.ActiveZero(log.slots, e.p);
    }
  }

  lemma {:induction false} CallStage(l: Layout, s: Work, t: Work)
    requires (s.log.phase.Recovering? ==> l.Wf(s.log.phase.base)) && StageOk(l, s) && t == s.(log := t.log)
    requires t.log.lh == s.log.lh && t.log.pinned == s.log.pinned
    requires t.log.phase == s.log.phase || (s.log.phase.Running? && t.log.phase == P.Committing(0, s.log.disk))
    ensures Done(s) == Done(t) && StageOk(l, t)
    ensures t.log.phase == s.log.phase || (s.log.phase.Running? && s.stage.Plain?)
  {
  }

  lemma {:induction false} CallKeeps(l: Layout, s: Sys, e: P.Event)
    requires Inv(l, s) && Enabled(l, s, Call(e)) && Facts(l, P.Next(l, s.work.log, e))
    ensures Inv(l, s.(work := s.work.(log := P.Next(l, s.work.log, e))))
  {
    var t := s.(work := s.work.(log := P.Next(l, s.work.log, e)));
    CallLog(l, s.work.log, e);
    CallStage(l, s.work, t.work);
    WorkLogs(s, t);
    SameDisks(l, s, t);
    CallChanged(l, s, t, e);
    WorkBufs(l, s, t);
    CallTarget(l, s, t);
  }

  lemma {:induction false} CallChanged(l: Layout, s: Sys, t: Sys, e: P.Event)
    requires Shaped(s) && Shaped(t) && Bufs(l, s) && t == s.(work := t.work) && t.work.stage == s.work.stage
    requires t.work.log.lh == s.work.log.lh && t.work.head == s.work.head
    requires t.work.log.phase == s.work.log.phase || (s.work.log.phase.Running? && s.work.stage.Plain?)
    requires forall who :: InOp(s.work, who) && !(e.End? && who == Proc(e.p)) ==> InOp(t.work, who)
    requires e.End? ==> forall b :: 0 <= b < C.NBUF && s.changed[b] ==> s.holder[b] != Proc(e.p)
    ensures forall b :: 0 <= b < C.NBUF ==> ChangedOk(l, t, b)
  {
    forall b | 0 <= b < C.NBUF ensures ChangedOk(l, t, b) {
      assert BufInv(l, s, b);
    }
  }

  lemma {:induction false} CallTarget(l: Layout, s: Sys, t: Sys)
    requires l.Valid() && |s.work.log.disk| == l.size && Shaped(s) && TargetOk(l, s) && Shaped(t)
    requires t == s.(work := t.work) && t.work.stage == s.work.stage && t.work.head == s.work.head
    requires t.work.log.lh == s.work.log.lh && t.work.log.pinned == s.work.log.pinned
             && t.work.log.disk == s.work.log.disk
    requires t.work.log.phase == s.work.log.phase || (s.work.log.phase.Running? && s.work.stage.Plain?)
    ensures TargetOk(l, t)
  {
  }

  /** While the log writes, nobody else has changed a buffer. */
  lemma {:induction false} OnlyTarget(l: Layout, s: Sys, b: nat)
    requires Facts(l, s.work.log) && !s.work.log.phase.Running? && Shaped(s) && Bufs(l, s) && b < C.NBUF && s.changed[b]
    ensures s.work.stage.Copied? && s.holder[b] == Kernel && C.Addr(s.m.bufs[b]) == At(To(l, s.work))
  {
    assert BufInv(l, s, b);
  }

  /** A held, unchanged buffer of a block that is not logged is as on disk. */
  lemma {:induction false} Clean(l: Layout, s: Sys, b: nat)
    requires Shaped(s) && C.MemOk(s.m) && Bufs(l, s) && b < C.NBUF && !s.holder[b].Nobody? && !s.changed[b]
    requires !Unsaved(s.work, C.Addr(s.m.bufs[b]))
    ensures C.Addr(s.m.bufs[b]) in s.m.k.disk && s.m.bufs[b].data == s.m.k.disk[C.Addr(s.m.bufs[b])]
  {
    assert BufInv(l, s, b) && C.BufOk(s.m.k, s.m.bufs[b], b);
  }

  lemma {:induction false} NotLogged(l: Layout, s: Work, b: nat)
    requires l.AllHome(s.log.lh) && !l.Home(b)
    ensures !Unsaved(s, At(b))
  {
  }

  lemma {:induction false} HeadData(l: Layout, s: Sys, b: nat)
    requires Facts(l, s.work.log) && Shaped(s) && C.MemOk(s.m) && Bufs(l, s) && StageOk(l, s.work) && Disks(l, s)
    requires Enabled(l, s, ReadHead(b))
    ensures s.m.bufs[b].data == s.work.log.disk[l.start] && s.work.log.disk[l.start][0] <= LOGBLOCKS
    ensures s.work.log.phase.Recovering? && s.work.log.disk == s.work.log.phase.base
  {
    if s.changed[b] {
      OnlyTarget(l, s, b);
    }
    NotLogged(l, s.work, l.start);
    Clean(l, s, b);
    assert Agree(l, s, l.start);
  }

  /** read_head finds the header that `LogProtocol` recovers from. */
  lemma {:induction false} HeadRead(l: Layout, s: Sys, b: nat)
    requires Facts(l, s.work.log) && Shaped(s) && C.MemOk(s.m) && Bufs(l, s) && StageOk(l, s.work) && Disks(l, s)
    requires Enabled(l, s, ReadHead(b))
    ensures Do(l, s, ReadHead(b)).work.head == l.Header(s.work.log.phase.base)
  {
    HeadData(l, s, b);
  }

  lemma {:induction false} ReadHeadKeeps(l: Layout, s: Sys, b: nat)
    requires Inv(l, s) && Enabled(l, s, ReadHead(b))
    ensures Inv(l, Do(l, s, ReadHead(b)))
  {
    var t := Do(l, s, ReadHead(b));
    HeadRead(l, s, b);
    forall i | 0 <= i < C.NBUF ensures ChangedOk(l, t, i) {
      if s.changed[i] {
        OnlyTarget(l, s, i);
      }
    }
    WorkBufs(l, s, t);
    WorkLogs(s, t);
    SameDisks(l, s, t);
  }

  // ---------------------------------------------------------------- copying and writing back

  /** The source buffer holds what the log is about to write. */
  lemma {:induction false} SourceHolds(l: Layout, s: Sys, from: nat)
    requires Facts(l, s.work.log) && Shaped(s) && C.MemOk(s.m) && Bufs(l, s) && StageOk(l, s.work) && Disks(l, s)
             && Logs(s)
    requires from < C.NBUF && s.work.stage.Plain? && Busy(l, s.work) && s.holder[from] == Kernel
    requires C.Addr(s.m.bufs[from]) == At(From(l, s.work)) && |List(s.work)| <= LOGBLOCKS
    ensures Contents(NextJob(s.work), s.m.bufs[from].data) == Data(l, s.work)
  {
    if s.changed[from] {
      OnlyTarget(l, s, from);
    }
    var j := NextJob(s.work);
    if j.ToLog? {
      assert LogOk(s, j.t);
      assert C.BufOk(s.m.k, s.m.bufs[from], from) && BufInv(l, s, from);
    } else {
      NotLogged(l, s.work, From(l, s.work));
      Clean(l, s, from);
      assert Agree(l, s, From(l, s.work));
    }
  }

  lemma {:induction false} SameJob(l: Layout, s: Work)
    requires s.stage.Plain?
    ensures var t := s.(stage := Copied);
            && Done(t) == Done(s) && List(t) == List(s) && NextJob(t) == NextJob(s) && To(l, t) == To(l, s)
            && forall w :: Unsaved(t, w) <==> Unsaved(s, w)
  {
  }

  lemma {:induction false} SameData(l: Layout, s: Work)
    requires s.stage.Plain? && l.Valid() && |s.log.disk| == l.size && |List(s)| <= LOGBLOCKS
    ensures var t := s.(stage := Copied); |List(t)| <= LOGBLOCKS && Data(l, t) == Data(l, s)
  {
    SameJob(l, s);
  }

  lemma {:induction false} NoneChanged(l: Layout, s: Sys)
    requires Facts(l, s.work.log) && !s.work.log.phase.Running? && Shaped(s) && Bufs(l, s) && !s.work.stage.Copied?
    ensures forall i :: 0 <= i < C.NBUF ==> !s.changed[i]
  {
    forall i | 0 <= i < C.NBUF ensures !s.changed[i] {
      assert BufInv(l, s, i);
    }
  }

  lemma {:induction false} MovedBufs(l: Layout, s: Sys, from: nat, to: nat)
    requires Shaped(s) && C.MemOk(s.m) && Bufs(l, s) && Enabled(l, s, Copy(from, to))
    requires forall i :: 0 <= i < C.NBUF ==> !s.changed[i]
    ensures var t := Moved(s, from, to); C.MemOk(t.m) && Bufs(l, t)
  {
    assert BufInv(l, s, to) && C.BufOk(s.m.k, s.m.bufs[to], to);
    SameJob(l, s.work);
    var t := Moved(s, from, to);
    C.ModifiedOk(s.m, to, t.m.bufs[to].data);
    forall i | 0 <= i < C.NBUF ensures BufInv(l, t, i) {
      assert BufInv(l, s, i);
      if i != to && s.m.bufs[i].dev != 0 && C.Addr(s.m.bufs[i]) == C.Addr(s.m.bufs[to]) {
        C.CachedOnce(s.m.bufs, s.m.k, i, to);
      }
    }
  }

  lemma {:induction false} CopiedStage(l: Layout, s: Work)
    requires Facts(l, s.log) && StageOk(l, s) && s.stage.Plain? && Busy(l, s)
    ensures StageOk(l, s.(stage := Copied)) && |List(s)| <= LOGBLOCKS && !s.log.phase.Running?
  {
  }

  lemma {:induction false} CopyKeeps(l: Layout, s: Sys, from: nat, to: nat)
    requires Inv(l, s) && Enabled(l, s, Copy(from, to))
    ensures Inv(l, Moved(s, from, to))
  {
    CopiedStage(l, s.work);
    SameJob(l, s.work);
    SameData(l, s.work);
    SourceHolds(l, s, from);
    NoneChanged(l, s);
    MovedBufs(l, s, from, to);
    var u := Changed(s, to, Data(l, s.work));
    ChangedContents(l, s, to, Data(l, s.work));
    var t := Moved(s, from, to);
    assert t == u.(work := t.work);
    WorkLogs(u, t);
    SameDisks(l, u, t);
    assert C.BufOk(s.m.k, s.m.bufs[to], to);
  }

  /** One block write on. */
  predicate Onward(s: P.Phase, t: P.Phase) {
    match s
    case Running => false
    case Committing(k, base) => t == P.Committing(k + 1, base)
    case Recovering(k, base) => t == P.Recovering(k + 1, base)
  }

  /** What a block write leaves of the log. */
  lemma {:induction false} CommitWrote(l: Layout, log: P.State)
    requires P.Shape(l, log) && P.Enabled(l, log, P.CommitWrite)
    ensures var t := P.Next(l, log, P.CommitWrite);
            t.lh == log.lh && t.pinned == log.pinned && t.slots == log.slots && t.journal == log.journal
            && Onward(log.phase, t.phase)
  {
  }

  lemma {:induction false} RecoverWrote(l: Layout, log: P.State)
    requires P.Shape(l, log) && P.Enabled(l, log, P.RecoverWrite)
    ensures var t := P.Next(l, log, P.RecoverWrite);
            t.lh == log.lh && t.pinned == log.pinned && t.slots == log.slots && t.journal == log.journal
            && Onward(log.phase, t.phase)
  {
  }

  lemma {:induction false} WroteWork(l: Layout, s: Work)
    requires P.Shape(l, s.log) && Busy(l, s)
    ensures var t := Wrote(l, s);
            && t.log.lh == s.log.lh && t.log.pinned == s.log.pinned && t.log.slots == s.log.slots && t.head == s.head
            && t.log.journal == s.log.journal && Onward(s.log.phase, t.log.phase)
            && (t.stage == if NextJob(s).Install? && s.log.phase.Committing? then Written else Plain)
  {
    if s.log.phase.Recovering? {
      RecoverWrote(l, s.log);
    } else {
      CommitWrote(l, s.log);
    }
  }

  lemma {:induction false} WroteDone(l: Layout, s: Work, t: Work)
    requires s.stage.Copied? && Busy(l, s) && t.log.lh == s.log.lh && Onward(s.log.phase, t.log.phase)
    requires t.stage == if NextJob(s).Install? && s.log.phase.Committing? then Written else Plain
    ensures Done(t) == Done(s) && (t.stage.Written? ==> Last(t) == To(l, s))
    ensures t.stage.Written? ==> t.log.phase.Committing? && |t.log.lh| + 2 <= t.log.phase.k <= 2 * |t.log.lh| + 1
  {
  }

  lemma {:induction false} WroteStage(l: Layout, s: Work)
    requires Facts(l, s.log) && StageOk(l, s) && s.stage.Copied? && Busy(l, s) && Facts(l, Wrote(l, s).log)
    ensures StageOk(l, Wrote(l, s))
  {
    WroteWork(l, s);
    WroteDone(l, s, Wrote(l, s));
  }

  lemma {:induction false} FlushedBufs(l: Layout, s: Sys, t: Sys, to: nat)
    requires Shaped(s) && C.MemOk(s.m) && Bufs(l, s) && Shaped(t) && to < C.NBUF && s.holder[to].Kernel?
    requires forall i :: 0 <= i < C.NBUF && i != to ==> !s.changed[i]
    requires Done(t.work) == Done(s.work) && t.work.log.lh == s.work.log.lh
    requires t.m == C.Written(s.m, to) && t.changed == s.changed[to := false] && t.holder == s.holder
             && t.waiting == s.waiting
    ensures C.MemOk(t.m) && Bufs(l, t)
  {
    assert BufInv(l, s, to) && C.BufOk(s.m.k, s.m.bufs[to], to);
    C.WrittenOk(s.m, to);
    forall i | 0 <= i < C.NBUF ensures BufInv(l, t, i) {
      assert BufInv(l, s, i);
      if i != to && s.m.bufs[i].dev != 0 && C.Addr(s.m.bufs[i]) == C.Addr(s.m.bufs[to]) {
        C.CachedOnce(s.m.bufs, s.m.k, i, to);
      }
    }
  }

  /** The target, if it is a logged block, gets what was logged. */
  lemma {:induction false} TargetLogged(l: Layout, s: Work)
    requires Facts(l, s.log) && StageOk(l, s) && s.stage.Copied? && Busy(l, s) && To(l, s) in s.log.lh
    ensures |List(s)| <= LOGBLOCKS && l.Valid() && |s.log.disk| == l.size && To(l, s) in s.log.pinned
    ensures Data(l, s) == s.log.pinned[To(l, s)]
  {
    assert l.Home(To(l, s));
    InstallsLogged(l, s);
  }

  lemma {:induction false} FlushedLogs(s: Sys, t: Sys, to: nat, w: nat)
    requires Shaped(s) && C.MemOk(s.m) && Shaped(t) && Logs(s) && to < C.NBUF && C.Addr(s.m.bufs[to]) == At(w)
    requires forall i :: 0 <= i < C.NBUF && i != to ==> !s.changed[i]
    requires Done(t.work) == Done(s.work) && t.work.log.lh == s.work.log.lh && t.work.log.pinned == s.work.log.pinned
    requires t.m == C.Written(s.m, to) && t.changed == s.changed[to := false]
    requires At(w) in s.m.k.latest
    requires w in s.work.log.lh ==> w in s.work.log.pinned && s.work.log.pinned[w] == s.m.k.latest[At(w)]
    ensures Logs(t)
  {
    assert C.BufOk(s.m.k, s.m.bufs[to], to);
    forall i | 0 <= i < |t.work.log.lh| ensures LogOk(t, i) {
      assert LogOk(s, i);
      var v := At(s.work.log.lh[i]);
      assert v in s.m.k.at ==> v in s.m.k.disk && C.BlockOk(s.m.bufs, s.m.k, v);
    }
  }

  lemma {:induction false} FlushedDisks(l: Layout, s: Sys, t: Sys, to: nat, w: nat, data: Block)
    requires Shaped(s) && Shaped(t) && |s.work.log.disk| == l.size && Disks(l, s) && w < l.size
    requires to < C.NBUF && C.Addr(s.m.bufs[to]) == At(w) && s.m.bufs[to].data == data
    requires t.m == C.Written(s.m, to) && t.work.log.disk == s.work.log.disk[w := data]
    ensures Disks(l, t)
  {
    forall i | 0 <= i < l.size ensures Agree(l, t, i) {
      assert Agree(l, s, i);
    }
  }

  lemma {:induction false} WriteBackKeeps(l: Layout, s: Sys, to: nat)
    requires Inv(l, s) && Enabled(l, s, WriteBack(to)) && Facts(l, Wrote(l, s.work).log)
    ensures Inv(l, Flushed(l, s, to))
  {
    var t, w := Flushed(l, s, to), To(l, s.work);
    WroteWork(l, s.work);
    WroteDone(l, s.work, t.work);
    WroteStage(l, s.work);
    TargetIs(l, s, to);
    FlushedBufs(l, s, t, to);
    if w in s.work.log.lh {
      TargetLogged(l, s.work);
    }
    FlushedLogs(s, t, to, w);
    NextWrite(l, s.work);
    FlushedDisks(l, s, t, to, w, Data(l, s.work));
  }

  /** The target buffer is the only changed one, and has what is to be written. */
  lemma {:induction false} TargetIs(l: Layout, s: Sys, to: nat)
    requires Inv(l, s) && Enabled(l, s, WriteBack(to)) && !s.work.log.phase.Running?
    ensures forall i :: 0 <= i < C.NBUF && i != to ==> !s.changed[i]
    ensures |List(s.work)| <= LOGBLOCKS && s.m.bufs[to].data == Data(l, s.work)
    ensures At(To(l, s.work)) in s.m.k.latest && s.m.k.latest[At(To(l, s.work))] == Data(l, s.work)
  {
    assert C.BufOk(s.m.k, s.m.bufs[to], to) && BufInv(l, s, to);
    forall i | 0 <= i < C.NBUF && i != to ensures !s.changed[i] {
      if s.changed[i] {
        OnlyTarget(l, s, i);
        C.CachedOnce(s.m.bufs, s.m.k, i, to);
      }
    }
  }

  // ---------------------------------------------------------------- unpinning, finishing, crashing

  lemma {:induction false} UnpinWork(s: Work)
    requires s.stage.Written? && s.log.phase.Committing? && |s.log.lh| + 2 <= s.log.phase.k <= 2 * |s.log.lh| + 1
    requires NoDup(s.log.lh)
    ensures var t := s.(stage := Plain);
            && Done(t) == Done(s) + 1 && s.log.lh[Done(s)] == Last(s)
            && forall w :: Unsaved(t, w) <==> Unsaved(s, w) && w != At(Last(s))
  {
    var t, d := s.(stage := Plain), Done(s);
    assert s.log.lh[d..] == [s.log.lh[d]] + s.log.lh[d + 1..];
    assert s.log.lh[d] !in s.log.lh[d + 1..];
  }

  lemma {:induction false} UnpinnedBufs(l: Layout, s: Sys, b: nat)
    requires Shaped(s) && C.MemOk(s.m) && Bufs(l, s) && Enabled(l, s, Unpin(b))
    requires forall i :: 0 <= i < C.NBUF ==> !s.changed[i]
    requires Unsaved(s.work, At(Last(s.work)))
    requires forall w :: Unsaved(s.work.(stage := Plain), w) <==> Unsaved(s.work, w) && w != At(Last(s.work))
    requires s.m.k.disk.Keys == s.m.k.latest.Keys && At(Last(s.work)) in s.m.k.disk
    requires s.m.k.disk[At(Last(s.work))] == s.m.k.latest[At(Last(s.work))]
    ensures var t := s.(m := C.Counted(s.m, b, 0, -1), work := s.work.(stage := Plain)); C.MemOk(t.m) && Bufs(l, t)
  {
    assert BufInv(l, s, b) && C.BufOk(s.m.k, s.m.bufs[b], b);
    var t := s.(m := C.Counted(s.m, b, 0, -1), work := s.work.(stage := Plain));
    C.CountedOk(s.m, b, 0, -1);
    forall i | 0 <= i < C.NBUF ensures BufInv(l, t, i) {
      assert BufInv(l, s, i);
      if i != b && s.m.bufs[i].dev != 0 && C.Addr(s.m.bufs[i]) == C.Addr(s.m.bufs[b]) {
        C.CachedOnce(s.m.bufs, s.m.k, i, b);
      }
    }
  }

  lemma {:induction false} UnpinKeeps(l: Layout, s: Sys, b: nat)
    requires Inv(l, s) && Enabled(l, s, Unpin(b))
    ensures Inv(l, Do(l, s, Unpin(b)))
  {
    var t := Do(l, s, Unpin(b));
    NoneChanged(l, s);
    UnpinWork(s.work);
    assert s.work.log.lh[Done(s.work)..][0] == Last(s.work);
    UnpinnedBufs(l, s, b);
    var u := s.(work := t.work);
    WorkLogs(s, u);
    SameLogs(u, t);
    SameDisks(l, s, t);
  }

  lemma {:induction false} SameLogs(s: Sys, t: Sys)
    requires Shaped(s) && Shaped(t) && Logs(s) && t.work == s.work && t.changed == s.changed
    requires t.m.k.at == s.m.k.at && t.m.k.latest == s.m.k.latest
    ensures Logs(t)
  {
    forall i | 0 <= i < |t.work.log.lh| ensures LogOk(t, i) {
      assert LogOk(s, i);
    }
  }

  lemma {:induction false} FinishLog(l: Layout, log: P.State, e: P.Event)
    requires P.Shape(l, log) && P.Enabled(l, log, e) && (e.CommitDone? || e.RecoverDone?)
    ensures var t := P.Next(l, log, e);
            && t.lh == [] && t.disk == log.disk && t.journal == log.journal
            && t.phase.Running? && !log.phase.Running?
  {
  }

  lemma {:induction false} FinishWork(l: Layout, s: Work)
    requires Facts(l, s.log) && s.stage.Plain? && P.Enabled(l, s.log, DoneEvent(s))
    ensures forall w :: !Unsaved(s, w)
  {
    assert Done(s) == |s.log.lh|;
  }

  lemma {:induction false} FinishKeeps(l: Layout, s: Sys)
    requires Inv(l, s) && Enabled(l, s, Finish) && Facts(l, Do(l, s, Finish).work.log)
    ensures Inv(l, Do(l, s, Finish))
  {
    var t := Do(l, s, Finish);
    FinishWork(l, s.work);
    FinishLog(l, s.work.log, DoneEvent(s.work));
    NoneChanged(l, s);
    WorkBufs(l, s, t);
    SameDisks(l, s, t);
  }

  lemma {:induction false} CrashKeeps(l: Layout, s: Sys)
    requires Inv(l, s) && Facts(l, Crashed(l, s).work.log)
    ensures Inv(l, Crashed(l, s))
  {
    var t := Crashed(l, s);
    C.BootedOk(s.m.k.disk);
    forall i | 0 <= i < l.size ensures Agree(l, t, i) {
      assert Agree(l, s, i);
    }
    forall i | 0 <= i < C.NBUF ensures BufInv(l, t, i) {
    }
  }

  // ---------------------------------------------------------------- whole runs

  /** Power-on with disk `d`: an empty cache and a log that has not been read. */
  ghost predicate Boots(l: Layout, d: Disk, s: Sys) {
    && |d| == l.size && s.work == Work(P.Boot(l, d), [], Unread) && s.m == C.Booted(s.m.k.disk)
    && s.holder == seq(C.NBUF, _ => Nobody) && s.waiting == seq(C.NBUF, _ => {})
    && s.changed == seq(C.NBUF, _ => false)
    && forall b :: 0 <= b < l.size ==> At(b) in s.m.k.disk && s.m.k.disk[At(b)] == d[b]
  }

  ghost predicate Stepped(l: Layout, s: Sys, step: Step, t: Sys) {
    Shaped(s) && P.Shape(l, s.work.log) && Enabled(l, s, step) && t == Do(l, s, step)
  }

  ghost predicate StepAt(l: Layout, states: seq<Sys>, steps: seq<Step>, i: nat)
    requires i < |steps| && |states| == |steps| + 1
  {
    Stepped(l, states[i], steps[i], states[i + 1])
  }

  ghost predicate Path(l: Layout, d: Disk, states: seq<Sys>, steps: seq<Step>) {
    && |states| == |steps| + 1 && Boots(l, d, states[0])
    && forall i :: 0 <= i < |steps| ==> StepAt(l, states, steps, i)
  }

  /** The log moves as `LogProtocol` does, or not at all. */
  lemma {:induction false} LogMoves(l: Layout, d: Disk, s: Sys, step: Step)
    requires P.Reachable(l, d, s.work.log) && Shaped(s) && P.Shape(l, s.work.log) && Enabled(l, s, step)
    ensures P.Reachable(l, d, Do(l, s, step).work.log)
  {
    match step
    case LogWrite(p, b) => P.Extend(l, d, s.work.log, P.LogWrite(p, s.m.bufs[b].blockno, s.m.bufs[b].data));
    case Call(e) => P.Extend(l, d, s.work.log, e);
    case WriteBack(_) => P.Extend(l, d, s.work.log, WriteEvent(s.work));
    case Finish => P.Extend(l, d, s.work.log, DoneEvent(s.work));
    case Crash => P.Extend(l, d, s.work.log, P.Crash);
    case _ =>
  }

  lemma {:induction false} BufferStepKeeps(l: Layout, s: Sys, step: Step)
    requires Inv(l, s) && Enabled(l, s, step) && (step.Get? || step.Lock? || step.Change? || step.Release?)
    ensures Inv(l, Do(l, s, step))
  {
    match step
    case Get(who, w, b) => GetKeeps(l, s, who, w, b);
    case Lock(who, b) => LockKeeps(l, s, who, b);
    case Change(p, b, data) => ChangeKeeps(l, s, p, b, data);
    case Release(who, b) => ReleaseKeeps(l, s, who, b);
  }

  lemma {:induction false} CallStepKeeps(l: Layout, s: Sys, step: Step)
    requires Inv(l, s) && Enabled(l, s, step) && (step.LogWrite? || step.Call? || step.Finish? || step.Crash?)
    requires Facts(l, Do(l, s, step).work.log)
    ensures Inv(l, Do(l, s, step))
  {
    match step
    case LogWrite(p, b) => LogWriteKeeps(l, s, p, b);
    case Call(e) => CallKeeps(l, s, e);
    case Finish => FinishKeeps(l, s);
    case Crash => CrashKeeps(l, s);
  }

  lemma {:induction false} LogStepKeeps(l: Layout, s: Sys, step: Step)
    requires Inv(l, s) && Enabled(l, s, step) && (step.ReadHead? || step.Copy? || step.WriteBack? || step.Unpin?)
    requires Facts(l, Do(l, s, step).work.log)
    ensures Inv(l, Do(l, s, step))
  {
    match step
    case ReadHead(b) => ReadHeadKeeps(l, s, b);
    case Copy(from, to) => CopyKeeps(l, s, from, to);
    case WriteBack(to) => WriteBackKeeps(l, s, to);
    case Unpin(b) => UnpinKeeps(l, s, b);
  }

  /** Every step keeps the invariant. */
  lemma {:induction false} StepKeeps(l: Layout, d: Disk, s: Sys, step: Step)
    requires l.Wf(d) && P.Reachable(l, d, s.work.log) && Inv(l, s) && Enabled(l, s, step)
    ensures P.Reachable(l, d, Do(l, s, step).work.log) && Inv(l, Do(l, s, step))
  {
    LogMoves(l, d, s, step);
    FactsHold(l, d, Do(l, s, step).work.log);
    if step.Get? || step.Lock? || step.Change? || step.Release? {
      BufferStepKeeps(l, s, step);
    } else if step.LogWrite? || step.Call? || step.Finish? || step.Crash? {
      CallStepKeeps(l, s, step);
    } else {
      LogStepKeeps(l, s, step);
    }
  }

  lemma {:induction false} BootReachable(l: Layout, d: Disk)
    requires l.Wf(d)
    ensures P.Reachable(l, d, P.Boot(l, d))
  {
    var none: seq<P.Event> := [];
    assert P.IsRun(l, d, none, [P.Boot(l, d)]) && [P.Boot(l, d)][|none|] == P.Boot(l, d);
  }

  lemma {:induction false} BootsInv(l: Layout, d: Disk, s: Sys)
    requires l.Wf(d) && Boots(l, d, s)
    ensures P.Reachable(l, d, s.work.log) && Inv(l, s)
  {
    BootReachable(l, d);
    FactsHold(l, d, s.work.log);
    C.BootedOk(s.m.k.disk);
    forall i | 0 <= i < C.NBUF ensures BufInv(l, s, i) {
    }
  }

  lemma {:induction false} RunInv(l: Layout, d: Disk, states: seq<Sys>, steps: seq<Step>, k: nat)
    requires l.Wf(d) && Path(l, d, states, steps) && k < |states|
    ensures P.Reachable(l, d, states[k].work.log) && Inv(l, states[k])
    decreases k
  {
    if k == 0 {
      BootsInv(l, d, states[0]);
    } else {
      RunInv(l, d, states, steps, k - 1);
      assert StepAt(l, states, steps, k - 1);
      StepKeeps(l, d, states[k - 1], steps[k - 1]);
    }
  }

  /** Disk `e` is what the disk under the cache holds of the log's device. */
  ghost predicate Holds(l: Layout, s: Sys, e: Disk) {
    |e| == l.size && forall b :: 0 <= b < l.size ==> At(b) in s.m.k.disk && s.m.k.disk[At(b)] == e[b]
  }

  /** The disk that the cached code writes is at every moment one from which a crash and
      recovery restore exactly the committed writes. */
  lemma {:induction false} CrashConsistent(l: Layout, d: Disk, states: seq<Sys>, steps: seq<Step>, k: nat, e: Disk)
    requires l.Wf(d) && Path(l, d, states, steps) && k < |states| && Holds(l, states[k], e)
    ensures var log := states[k].work.log;
            && l.Wf(e) && P.AllAt(l, log.journal) && log.committed <= |log.journal|
            && l.SameHome(Recovered(l, e), P.Effects(l, Recovered(l, d), log.journal[..log.committed]))
  {
    RunInv(l, d, states, steps, k);
    var s := states[k];
    P.CrashConsistency(l, d, s.work.log);
    assert e == s.work.log.disk by {
      forall b | 0 <= b < l.size ensures e[b] == s.work.log.disk[b] {
        assert Agree(l, s, b);
      }
    }
  }

  // ---------------------------------------------------------------- what a read returns

  /** The view of a home block that `LogSystem` and `LogProtocol` work with. */
  function View(log: P.State, b: nat): Block
    requires b < |log.disk|
  {
    if b in log.pinned then log.pinned[b] else log.disk[b]
  }

  lemma {:induction false} LatestIsView(l: Layout, s: Sys, b: nat)
    requires Inv(l, s) && b < C.NBUF && s.m.bufs[b].dev == DEV && l.Home(s.m.bufs[b].blockno) && s.m.bufs[b].valid
    requires !s.changed[b]
    ensures s.m.bufs[b].data == View(s.work.log, s.m.bufs[b].blockno)
  {
    var x := s.m.bufs[b];
    assert C.BufOk(s.m.k, x, b) && BufInv(l, s, b) && Agree(l, s, x.blockno);
    if x.blockno in s.work.log.lh {
      var i :| 0 <= i < |s.work.log.lh| && s.work.log.lh[i] == x.blockno;
      assert LogOk(s, i);
    }
  }

  /** Whoever gets the lock of a buffer finds the latest contents of the block in it: for a
      home block what was logged last, or what is on disk if it is not logged. */
  lemma {:induction false} ReadsLatest(l: Layout, d: Disk, states: seq<Sys>, steps: seq<Step>, k: nat)
    requires l.Wf(d) && Path(l, d, states, steps) && k < |steps| && steps[k].Lock?
    ensures Shaped(states[k + 1]) && steps[k].b < C.NBUF
    ensures var s, x := states[k + 1], states[k + 1].m.bufs[steps[k].b];
            && x.valid && C.Addr(x) in s.m.k.latest && x.data == s.m.k.latest[C.Addr(x)] && |s.work.log.disk| == l.size
            && (x.dev == DEV && l.Home(x.blockno) ==> x.data == View(s.work.log, x.blockno))
  {
    RunInv(l, d, states, steps, k);
    RunInv(l, d, states, steps, k + 1);
    assert StepAt(l, states, steps, k);
    var s, b := states[k + 1], steps[k].b;
    assert BufInv(l, states[k], b) && BufInv(l, s, b) && C.BufOk(s.m.k, s.m.bufs[b], b);
    if s.m.bufs[b].dev == DEV && l.Home(s.m.bufs[b].blockno) {
      LatestIsView(l, s, b);
    }
  }

  // ---------------------------------------------------------------- logged blocks stay cached

  lemma {:induction false} SameAt(l: Layout, s: Sys, step: Step)
    requires Shaped(s) && P.Shape(l, s.work.log) && Enabled(l, s, step) && !step.Crash? && !step.Get?
    ensures Do(l, s, step).m.k.at == s.m.k.at
  {
  }

  lemma {:induction false} GetStays(l: Layout, s: Sys, step: Step, w: C.Where)
    requires Shaped(s) && C.MemOk(s.m) && Bufs(l, s) && Enabled(l, s, step) && step.Get?
    requires Unsaved(s.work, w) && w in s.m.k.at
    ensures var t := Got(s, step.who, step.w, step.b); w in t.m.k.at && t.m.k.at[w] == s.m.k.at[w]
  {
    assert C.BlockOk(s.m.bufs, s.m.k, w);
    if step.w !in s.m.k.at {
      UnusedUnchanged(l, s, step.b);
    }
  }

  lemma {:induction false} StaysCached(l: Layout, s: Sys, step: Step, w: C.Where)
    requires Inv(l, s) && Enabled(l, s, step) && Unsaved(s.work, w) && !step.Crash?
    ensures w in s.m.k.at && w in Do(l, s, step).m.k.at && Do(l, s, step).m.k.at[w] == s.m.k.at[w]
  {
    UnsavedCached(s, w);
    if step.Get? {
      GetStays(l, s, step, w);
    } else {
      SameAt(l, s, step);
    }
  }

  lemma {:induction false} PinnedOnce(l: Layout, s: Sys, w: C.Where)
    requires Inv(l, s) && Unsaved(s.work, w)
    ensures C.Sized(s.m) && w in s.m.k.at && s.m.k.at[w] < C.NBUF
    ensures var b := s.m.k.at[w]; C.Addr(s.m.bufs[b]) == w && s.m.k.pins[b] == 1 && s.m.bufs[b].refcnt > 0
  {
    UnsavedCached(s, w);
    assert C.BlockOk(s.m.bufs, s.m.k, w);
    assert BufInv(l, s, s.m.k.at[w]) && C.BufOk(s.m.k, s.m.bufs[s.m.k.at[w]], s.m.k.at[w]);
  }

  lemma {:induction false} StepCached(l: Layout, d: Disk, states: seq<Sys>, steps: seq<Step>, w: C.Where, j: nat)
    requires l.Wf(d) && Path(l, d, states, steps) && j < |steps|
    requires Unsaved(states[j].work, w) && Unsaved(states[j + 1].work, w)
    ensures w in states[j].m.k.at && w in states[j + 1].m.k.at && states[j + 1].m.k.at[w] == states[j].m.k.at[w]
  {
    RunInv(l, d, states, steps, j);
    assert StepAt(l, states, steps, j);
    CrashForgets(l, states[j], steps[j], w);
    StaysCached(l, states[j], steps[j], w);
  }

  lemma {:induction false} SameBuffer(
    l: Layout, d: Disk, states: seq<Sys>, steps: seq<Step>, w: C.Where, i: nat, j: nat)
    requires l.Wf(d) && Path(l, d, states, steps) && i <= j < |states| && w in states[i].m.k.at
    requires forall k :: i <= k <= j ==> Unsaved(states[k].work, w)
    ensures w in states[j].m.k.at && states[j].m.k.at[w] == states[i].m.k.at[w]
    decreases j
  {
    if i < j {
      SameBuffer(l, d, states, steps, w, i, j - 1);
      StepCached(l, d, states, steps, w, j - 1);
    }
  }

  /** While a block is logged and not installed, its buffer is never given to another block:
      it stays in the cache, pinned exactly once, in the same buffer. */
  lemma {:induction false} LoggedNeverRecycled(
    l: Layout, d: Disk, states: seq<Sys>, steps: seq<Step>, w: C.Where, i: nat, j: nat)
    requires l.Wf(d) && Path(l, d, states, steps) && i <= j < |states|
    requires forall k :: i <= k <= j ==> Unsaved(states[k].work, w)
    ensures w in states[i].m.k.at && w in states[j].m.k.at && states[j].m.k.at[w] == states[i].m.k.at[w]
    ensures var b := states[j].m.k.at[w];
            && b < C.NBUF && C.Sized(states[j].m)
            && C.Addr(states[j].m.bufs[b]) == w && states[j].m.k.pins[b] == 1 && states[j].m.bufs[b].refcnt > 0
  {
    RunInv(l, d, states, steps, i);
    PinnedOnce(l, states[i], w);
    SameBuffer(l, d, states, steps, w, i, j);
    RunInv(l, d, states, steps, j);
    PinnedOnce(l, states[j], w);
  }

  lemma {:induction false} CrashForgets(l: Layout, s: Sys, step: Step, w: C.Where)
    requires Shaped(s) && P.Shape(l, s.work.log) && Enabled(l, s, step) && Unsaved(Do(l, s, step).work, w)
    ensures !step.Crash?
  {
  }

  // ---------------------------------------------------------------- reading what was written

  lemma {:induction false} HasBlock(l: Layout, s: Sys, b: nat)
    requires Inv(l, s) && b < l.size
    ensures At(b) in s.m.k.latest && Shaped(s) && P.Shape(l, s.work.log)
  {
    assert Agree(l, s, b);
  }

  /** A commit installs what the home block holds already. */
  lemma {:induction false} InstallLatest(l: Layout, s: Sys)
    requires Facts(l, s.work.log) && Shaped(s) && Logs(s) && forall i :: 0 <= i < C.NBUF ==> !s.changed[i]
    requires Busy(l, s.work) && !s.work.log.phase.Recovering? && l.Home(To(l, s.work))
    ensures At(To(l, s.work)) in s.m.k.latest && |List(s.work)| <= LOGBLOCKS
    ensures s.m.k.latest[At(To(l, s.work))] == Data(l, s.work)
  {
    InstallsLogged(l, s.work);
    assert LogOk(s, NextJob(s.work).t);
  }

  lemma {:induction false} CopyLatest(l: Layout, s: Sys, from: nat, to: nat, b: nat)
    requires Inv(l, s) && Enabled(l, s, Copy(from, to)) && l.Home(b) && !s.work.log.phase.Recovering?
    requires At(b) in s.m.k.latest
    ensures Moved(s, from, to).m.k.latest[At(b)] == s.m.k.latest[At(b)]
  {
    CopiedStage(l, s.work);
    if To(l, s.work) == b {
      SourceHolds(l, s, from);
      NoneChanged(l, s);
      InstallLatest(l, s);
    }
  }

  lemma {:induction false} OtherLatest(l: Layout, s: Sys, step: Step, w: C.Where)
    requires Shaped(s) && P.Shape(l, s.work.log) && Enabled(l, s, step) && w in s.m.k.latest
    requires !step.Crash? && !step.Copy? && !(step.Change? && C.Addr(s.m.bufs[step.b]) == w)
    ensures Do(l, s, step).m.k.latest[w] == s.m.k.latest[w]
  {
  }

  lemma {:induction false} StillRunning(l: Layout, s: Sys, step: Step)
    requires Shaped(s) && P.Shape(l, s.work.log) && Enabled(l, s, step) && !s.work.log.phase.Recovering? && !step.Crash?
    ensures !Do(l, s, step).work.log.phase.Recovering?
  {
  }

  /** The latest contents of home block `b` stay the same from state `i` to state `j`, if no
      process changes it and the machine does not crash. */
  lemma {:induction false} LatestStays(l: Layout, d: Disk, states: seq<Sys>, steps: seq<Step>, b: nat, i: nat, j: nat)
    requires l.Wf(d) && Path(l, d, states, steps) && i <= j < |states| && l.Home(b)
    requires !states[i].work.log.phase.Recovering?
    requires forall k :: i <= k < j ==> Leaves(states[k], steps[k], At(b))
    ensures At(b) in states[i].m.k.latest && At(b) in states[j].m.k.latest
    ensures states[j].m.k.latest[At(b)] == states[i].m.k.latest[At(b)] && !states[j].work.log.phase.Recovering?
    decreases j
  {
    RunInv(l, d, states, steps, j);
    assert Agree(l, states[j], b);
    if i < j {
      LatestStays(l, d, states, steps, b, i, j - 1);
      LatestStep(l, d, states, steps, b, j - 1);
    }
  }

  /** The step does not change block `w` and is not a crash. */
  ghost predicate Leaves(s: Sys, step: Step, w: C.Where) {
    !step.Crash? && !(step.Change? && step.b < |s.m.bufs| && C.Addr(s.m.bufs[step.b]) == w)
  }

  lemma {:induction false} StepLatest(l: Layout, s: Sys, step: Step, b: nat)
    requires Inv(l, s) && Enabled(l, s, step) && l.Home(b) && !s.work.log.phase.Recovering?
    requires Leaves(s, step, At(b)) && At(b) in s.m.k.latest
    ensures Do(l, s, step).m.k.latest[At(b)] == s.m.k.latest[At(b)]
  {
    if step.Copy? {
      CopyLatest(l, s, step.from, step.to, b);
    } else {
      OtherLatest(l, s, step, At(b));
    }
  }

  lemma {:induction false} LatestStep(l: Layout, d: Disk, states: seq<Sys>, steps: seq<Step>, b: nat, k: nat)
    requires l.Wf(d) && Path(l, d, states, steps) && k < |steps| && l.Home(b)
    requires !states[k].work.log.phase.Recovering? && Leaves(states[k], steps[k], At(b))
             && At(b) in states[k].m.k.latest
    ensures At(b) in states[k + 1].m.k.latest && states[k + 1].m.k.latest[At(b)] == states[k].m.k.latest[At(b)]
    ensures !states[k + 1].work.log.phase.Recovering?
  {
    RunInv(l, d, states, steps, k);
    RunInv(l, d, states, steps, k + 1);
    HasBlock(l, states[k + 1], b);
    assert StepAt(l, states, steps, k);
    StillRunning(l, states[k], steps[k]);
    StepLatest(l, states[k], steps[k], b);
  }

  /** bread returns what was written last. A process changes home block `b` at step `i`;
      nobody changes it again until step `j`, where somebody gets the lock of its buffer;
      there may be commits, evictions and other reads in between, but no crash. Then that
      buffer holds what was put at step `i`. */
  lemma {:induction false} ReadsWhatWasWritten(
    l: Layout, d: Disk, states: seq<Sys>, steps: seq<Step>, b: nat, i: nat, j: nat)
    requires l.Wf(d) && Path(l, d, states, steps) && i < j < |steps| && l.Home(b)
    requires steps[i].Change? && steps[i].b < |states[i].m.bufs| && C.Addr(states[i].m.bufs[steps[i].b]) == At(b)
    requires steps[j].Lock? && steps[j].b < |states[j + 1].m.bufs| && C.Addr(states[j + 1].m.bufs[steps[j].b]) == At(b)
    requires forall k :: i < k < j ==> Leaves(states[k], steps[k], At(b))
    ensures states[j + 1].m.bufs[steps[j].b].data == steps[i].data
  {
    RunInv(l, d, states, steps, i);
    assert StepAt(l, states, steps, i);
    OpRunning(l, states[i].work, Proc(steps[i].p));
    LatestStays(l, d, states, steps, b, i + 1, j);
    LatestStep(l, d, states, steps, b, j);
    ReadsLatest(l, d, states, steps, j);
  }

  // ---------------------------------------------------------------- reachable states

  const DEPTH: nat

  /** Some run ends in state `s`. The countdown keeps the verifier from looking inside. */
  ghost predicate Reached(l: Layout, d: Disk, s: Sys, k: nat) {
    if k == 0 then l.Wf(d) && exists states, steps :: Path(l, d, states, steps) && states[|steps|] == s
    else Reached(l, d, s, k - 1)
  }

  lemma {:induction false} ReachedRun(l: Layout, d: Disk, s: Sys, k: nat) returns (states: seq<Sys>, steps: seq<Step>)
    requires Reached(l, d, s, k)
    ensures l.Wf(d) && Path(l, d, states, steps) && states[|steps|] == s
  {
    if k == 0 {
      states, steps :| Path(l, d, states, steps) && states[|steps|] == s;
    } else {
      states, steps := ReachedRun(l, d, s, k - 1);
    }
  }

  lemma {:induction false} RunReaches(l: Layout, d: Disk, states: seq<Sys>, steps: seq<Step>, k: nat)
    requires l.Wf(d) && Path(l, d, states, steps)
    ensures Reached(l, d, states[|steps|], k)
  {
    if k > 0 {
      RunReaches(l, d, states, steps, k - 1);
    }
  }

  lemma {:induction false} ReachedInv(l: Layout, d: Disk, s: Sys)
    requires Reached(l, d, s, DEPTH)
    ensures Inv(l, s)
  {
    var states, steps := ReachedRun(l, d, s, DEPTH);
    RunInv(l, d, states, steps, |steps|);
  }

  lemma {:induction false} BootReached(l: Layout, d: Disk, s: Sys)
    requires l.Wf(d) && Boots(l, d, s)
    ensures Reached(l, d, s, DEPTH)
  {
    var none: seq<Step> := [];
    RunReaches(l, d, [s], none, DEPTH);
  }

  /** A run goes one step further. */
  lemma {:induction false} Append(l: Layout, d: Disk, s: Sys, step: Step, t: Sys)
    requires Reached(l, d, s, DEPTH) && Stepped(l, s, step, t)
    ensures Reached(l, d, t, DEPTH) && Shaped(t) && P.Shape(l, t.work.log)
  {
    var states, steps := ReachedRun(l, d, s, DEPTH);
    var states', steps' := states + [t], steps + [step];
    forall i | 0 <= i < |steps'| ensures StepAt(l, states', steps', i) {
      if i < |steps| {
        assert StepAt(l, states, steps, i);
      }
    }
    RunReaches(l, d, states', steps', DEPTH);
    RunInv(l, d, states', steps', |steps'|);
  }
}
