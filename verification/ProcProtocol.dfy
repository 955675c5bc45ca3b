/** Processes, CPUs and spinlocks as an interleaving machine (kernel/proc.c,
    kernel/sleeplock.c): the scheduler's hand-over of a process lock across swtch, the split
    sleep_prepare/sleep protocol, wakeup, sleep locks, wait and exit.

    A step is what one CPU does between two points where another CPU can interfere: taking
    or releasing a spinlock, or a critical section on one process lock. Timer interrupts can
    make a process yield wherever it holds no spinlock. Wakeups and kills by others can
    happen at any time. */
module ProcProtocol {
  import opened Params
  import opened ProcStates

  const NCPU: Pos
  const NLOCKS: nat       // sleep locks
  const INIT: nat := 0    // slot of the init process

  /** What a process can wait for: a sleep lock, the exit of a child of process `p`, or
      anything else. */
  datatype Chan = None | LockChan(l: nat) | ProcChan(p: nat) | Other

  /** Where a process is in the kernel. */
  datatype Pc =
    | User
    // yield: holding its own lock, and switched out; it goes on at `back`
    | Yielding(back: Pc) | Off(back: Pc)
    // sleep: registered on the channel, holding its own lock, and switched out
    | Sleepy(ch: Chan) | Dozing(ch: Chan) | Asleep(ch: Chan)
    // acquiresleep: waiting for, holding the inner lock, registered while holding it
    | WantInner(l: nat) | HasInner(l: nat) | Prepared(l: nat)
    // releasesleep: waiting for the inner lock; waking process `q` next
    | WantRelease(l: nat) | Waking(l: nat, q: nat)
    // kwait: waiting for wait_lock, looking at child `i` next, registered while holding it
    | WantWait | Scanning(i: nat) | WaitPrepared
    // kexit: giving away child `i`, waking init after that, waking the parent
    | WantExit | Reparenting(i: nat) | WakingInit(i: nat, q: nat) | WakingParent(q: nat)
    // kexit: about to become a zombie, a zombie holding wait_lock, about to switch out
    | Exiting | Dying | Dead | Gone

  datatype Proc = Proc(st: State, chan: Chan, lock: int, parent: int, on: int, pc: Pc)

  /** What a CPU is doing: looking for work; holding the lock of a process it looks at;
      running its current process; back in the scheduler after that switched out. */
  datatype Doing = Idle | Picked(p: nat) | InProc | Back(p: nat)

  datatype Cpu = Cpu(cur: int, doing: Doing)

  /** `inner` and `wl` are the processes that hold a sleep lock's inner lock and wait_lock,
      or -1. `on` is the CPU whose current process this is, or -1. */
  datatype Sys = Sys(procs: seq<Proc>, cpus: seq<Cpu>, locked: seq<bool>, inner: seq<int>, wl: int)

  // ---------------------------------------------------------------- classes of places

  /** Holding its own process lock while running. */
  predicate OwnLock(pc: Pc) { pc.Yielding? || pc.Off? || pc.Dozing? || pc.Asleep? || pc.Dying? || pc.Dead? }

  /** Holding no spinlock, so that a timer interrupt can get in. */
  predicate NoSpin(
    pc: Pc) { pc.User? || pc.Sleepy? || pc.WantInner? || pc.WantRelease? || pc.WantWait? || pc.WantExit? }

  predicate HoldsInner(pc: Pc, l: nat) { (pc.HasInner? || pc.Prepared? || pc.Waking?) && pc.l == l }

  predicate HoldsWait(pc: Pc) {
    pc.Scanning? || pc.WaitPrepared? || pc.Reparenting? || pc.WakingInit? || pc.WakingParent? || pc.Exiting?
    || pc.Dying?
  }

  predicate ExitPc(pc: Pc) {
    || pc.WantExit? || pc.Reparenting? || pc.WakingInit? || pc.WakingParent? || pc.Exiting? || pc.Dying? || pc.Dead?
       || pc.Gone?
  }

  /** Switched out. */
  predicate Parked(pc: Pc) { pc.Off? || pc.Asleep? || pc.Gone? }

  /** Where an interrupted process will go on. */
  function Eff(pc: Pc): Pc { if pc.Off? || pc.Yielding? then pc.back else pc }

  /** Where sleep returns to. */
  function After(ch: Chan): Pc { match ch case LockChan(l) => WantInner(l) case ProcChan(_) => WantWait case _ => User }

  /** Between sleep_prepare on `ch` and the return from sleep. */
  predicate Committed(pc: Pc, ch: Chan) {
    var e := Eff(pc);
    || ((e.Sleepy? || e.Dozing? || e.Asleep?) && e.ch == ch)
    || (ch.LockChan? && e == Prepared(ch.l))
    || (ch.ProcChan? && e == WaitPrepared)
  }

  /** Registered on `ch`, and no wakeup has cleared that since. */
  predicate Waits(x: Proc, ch: Chan) { x.chan == ch && Committed(x.pc, ch) }

  // ---------------------------------------------------------------- the invariant

  ghost predicate CpuOk(s: Sys, c: nat)
    requires c < |s.cpus|
  {
    var u := s.cpus[c];
    match u.doing
    case Idle => u.cur == -1
    case Picked(p) => u.cur == -1 && p < |s.procs| && s.procs[p].lock == c
    case InProc => 0 <= u.cur < |s.procs| && s.procs[u.cur].on == c && RunOk(s.procs[u.cur], c)
    case Back(p) =>
      u.cur == p < |s.procs| && s.procs[p].on == c && s.procs[p].lock == c && Parked(s.procs[p].pc)
      && s.procs[p].st != Running && s.procs[p].st != Unused && s.procs[p].st != Used
  }

  /** A process that a CPU is executing. */
  ghost predicate RunOk(x: Proc, c: int) {
    && (OwnLock(x.pc) ==> x.lock == c) && !x.pc.Gone?
    && x.st == if x.pc.Dying? || x.pc.Dead? then Zombie else Running
  }

  /** What a process's state says about where it is. */
  ghost predicate PlaceOk(x: Proc, p: nat) {
    && -1 <= x.parent < NPROC && x.parent != p
    && (p == INIT ==> x.parent == -1 && !ExitPc(Eff(x.pc)) && x.st != Used)
    && (x.on == -1 ==> x.st != Running && Parked(x.pc))
    && (x.st == Runnable ==> x.pc.Off? || x.pc.Asleep?)
    && (x.st == Used ==> x.pc == Off(User))
    && (x.st == Unused ==> x.pc == Gone)
    && (x.st == Sleeping ==> x.pc == Asleep(x.chan) && x.chan != None)
    && (x.st == Zombie ==> x.pc.Dying? || x.pc.Dead? || x.pc.Gone?)
    && (x.pc.Off? || x.pc.Yielding? ==> NoSpin(x.pc.back))
    && ChanOk(Eff(x.pc), x.chan, p)
  }

  /** Whoever registered on a channel is still on it, or a wakeup took it off. */
  ghost predicate ChanOk(e: Pc, chan: Chan, p: nat) {
    && (e.Sleepy? || e.Dozing? || e.Asleep? ==>
          e.ch != None && (chan == e.ch || chan == None) && (e.ch.ProcChan? ==> e.ch.p == p))
    && (e.Prepared? ==> chan == LockChan(e.l) || chan == None)
    && (e.WaitPrepared? ==> chan == ProcChan(p) || chan == None)
  }

  ghost predicate ProcOk(s: Sys, p: nat)
    requires p < |s.procs|
  {
    var x := s.procs[p];
    && PlaceOk(x, p) && -1 <= x.on < |s.cpus|
    && (x.on >= 0 ==> s.cpus[x.on].cur == p && (s.cpus[x.on].doing == InProc || s.cpus[x.on].doing == Back(p)))
  }

  /** Each spinlock's holder is at a place where it holds it. */
  ghost predicate HoldersOk(s: Sys) {
    && (forall p, l :: 0 <= p < |s.procs| && 0 <= l < |s.inner| && HoldsInner(s.procs[p].pc, l) ==> s.inner[l] == p)
    && (forall l :: 0 <= l < |s.inner| && s.inner[l] != -1 ==>
        0 <= s.inner[l] < |s.procs| && HoldsInner(s.procs[s.inner[l]].pc, l))
    && (forall p :: 0 <= p < |s.procs| && HoldsWait(s.procs[p].pc) ==> s.wl == p)
    && (s.wl != -1 ==> 0 <= s.wl < |s.procs| && HoldsWait(s.procs[s.wl].pc))
    && (forall p :: 0 <= p < |s.procs| && s.procs[p].pc.Prepared? ==>
        s.procs[p].pc.l < |s.locked| && s.locked[s.procs[p].pc.l])
  }

  /** A wakeup of sleep lock `l` is under way and has yet to come to process `p`. */
  ghost predicate WakeComing(s: Sys, l: nat, p: nat)
    requires l < |s.inner|
  {
    0 <= s.inner[l] < |s.procs| && s.procs[s.inner[l]].pc.Waking? && s.procs[s.inner[l]].pc.q <= p
  }

  /** Whoever waits for a sleep lock waits for one that is locked, or will be woken. */
  ghost predicate SleepersOk(s: Sys) {
    forall p, l :: 0 <= p < |s.procs| && 0 <= l < |s.locked| && l < |s.inner| && Waits(s.procs[p], LockChan(l)) ==>
      s.locked[l] || WakeComing(s, l, p)
  }

  /** A child was given to init, and the wakeup for that has yet to come to init. */
  ghost predicate InitWakeComing(s: Sys) {
    0 <= s.wl < |s.procs| && s.procs[s.wl].pc.WakingInit? && s.procs[s.wl].pc.q <= INIT
  }

  /** No process waits for a child while it has a zombie child, unless it will be woken. */
  ghost predicate ParentsOk(s: Sys) {
    forall p, j ::
      0 <= p < |s.procs| && 0 <= j < |s.procs| &&
      Waits(s.procs[p], ProcChan(p)) && s.procs[j].parent == p && s.procs[j].st == Zombie ==>
      p == INIT && InitWakeComing(s)
  }

  /** What scanning children and waking parents have established so far. */
  ghost predicate WaitersOk(s: Sys, w: nat)
    requires w < |s.procs|
  {
    match s.procs[w].pc
    case Scanning(i) => forall j :: 0 <= j < |s.procs| && j < i && s.procs[j].parent == w ==> s.procs[j].st != Zombie
    case WakingInit(_, q) => q > INIT && INIT < |s.procs| ==> !Waits(s.procs[INIT], ProcChan(INIT))
    case WakingParent(q) => 0 <= s.procs[w].parent < q && s.procs[w].parent < |s.procs| ==>
                              !Waits(s.procs[s.procs[w].parent], ProcChan(s.procs[w].parent))
    case Exiting => 0 <= s.procs[w].parent < |s.procs| ==>
                      !Waits(s.procs[s.procs[w].parent], ProcChan(s.procs[w].parent))
    case _ => true
  }

  ghost predicate Shape(s: Sys) {
    |s.procs| == NPROC && |s.cpus| == NCPU && |s.locked| == |s.inner| == NLOCKS && -1 <= s.wl < NPROC
  }

  /** The part about who runs where. */
  ghost predicate RunInv(s: Sys) {
    Shape(s) && (forall c :: 0 <= c < NCPU ==> CpuOk(s, c)) && (forall p :: 0 <= p < NPROC ==> ProcOk(s, p))
  }

  /** The part about who waits for what. */
  ghost predicate WaitInv(s: Sys) {
    Shape(s) && HoldersOk(s) && SleepersOk(s) && ParentsOk(s) && forall w :: 0 <= w < NPROC ==> WaitersOk(s, w)
  }

  /** An arbitrary depth at which `WaitInv` is kept folded. */
  const DEPTH: nat

  ghost predicate WaitAt(s: Sys, depth: nat) { if depth == 0 then WaitInv(s) else WaitAt(s, depth - 1) }

  ghost predicate WaitOk(s: Sys) { WaitAt(s, DEPTH) }

  lemma {:induction false} UnfoldAt(s: Sys, depth: nat)
    ensures WaitAt(s, depth) <==> WaitInv(s)
  {
    if depth > 0 {
      UnfoldAt(s, depth - 1);
    }
  }

  lemma Unfold(s: Sys)
    ensures WaitOk(s) <==> WaitInv(s)
  {
    UnfoldAt(s, DEPTH);
  }

  ghost predicate RunAt(s: Sys, depth: nat) { if depth == 0 then RunInv(s) else RunAt(s, depth - 1) }

  lemma {:induction false} UnfoldRunAt(s: Sys, depth: nat)
    ensures RunAt(s, depth) <==> RunInv(s)
  {
    if depth > 0 {
      UnfoldRunAt(s, depth - 1);
    }
  }

  lemma UnfoldRun(s: Sys)
    ensures RunAt(s, DEPTH) <==> RunInv(s)
  {
    UnfoldRunAt(s, DEPTH);
  }

  ghost predicate Inv(s: Sys) { RunAt(s, DEPTH) && WaitOk(s) }

  // ---------------------------------------------------------------- steps

  /** Steps name the CPU `c` that takes them, except wakeups, kills and forks by anyone. */
  datatype Step =
    // scheduler
    | Pick(c: nat, p: nat) | Unpick(c: nat) | Dispatch(c: nat) | BackOut(c: nat)
    // a process starting to run again, being interrupted, switching out
    | Resume(c: nat) | Preempt(c: nat) | YieldOut(c: nat)
    // sleep_prepare on some other channel; sleep
    | Register(c: nat) | Doze(c: nat) | SleepOut(c: nat) | SleepNot(c: nat)
    // by anyone: wakeup reaching process `q`, kill, fork in its parts
    | WakeUp(q: nat) | Kill(q: nat) | Alloc(q: nat) | Unalloc(q: nat) | SetParent(q: nat, p: nat) | Ready(q: nat)
    // going to a place without doing anything
    | Move(c: nat, pc: Pc)
    // sleep locks
    | TakeInner(c: nat) | GetLock(c: nat) | Prepare(c: nat) | DropInner(c: nat)
    | BeginRelease(c: nat) | WakeNext(c: nat) | EndRelease(c: nat)
    // wait
    | TakeWait(c: nat) | ScanNext(c: nat) | Reap(c: nat) | GiveUp(c: nat) | PrepareWait(c: nat) | DropWait(c: nat)
    // exit
    | TakeExit(c: nat) | Reparent(c: nat) | WakeInitNext(c: nat) | WakeParentNext(c: nat)
    | BeZombie(c: nat) | DropExit(c: nat) | DeadOut(c: nat)

  predicate Runs(s: Sys, c: nat) { c < |s.cpus| && s.cpus[c].doing == InProc && 0 <= s.cpus[c].cur < |s.procs| }

  function Me(s: Sys, c: nat): (p: nat)
    requires Runs(s, c)
    ensures p < |s.procs|
  {
    s.cpus[c].cur
  }

  function At(s: Sys, c: nat): Pc
    requires Runs(s, c)
  {
    s.procs[Me(s, c)].pc
  }

  predicate FreeLock(s: Sys, q: nat) { q < |s.procs| && s.procs[q].lock == -1 }

  /** Places reached without touching anything. */
  predicate Moves(s: Sys, p: nat, pc: Pc)
    requires p < |s.procs|
  {
    match s.procs[p].pc
    case User => (pc.WantInner? && pc.l < NLOCKS) || (pc.WantRelease? && pc.l < NLOCKS) || pc == WantWait
                 || (pc == WantExit && p != INIT)
    case Scanning(i) => i < |s.procs| && s.procs[i].parent != p && pc == Scanning(i + 1)
    case Reparenting(i) => (i < |s.procs| && s.procs[i].parent != p && pc == Reparenting(i + 1))
                           || (i == |s.procs| && pc == WakingParent(0))
    case WakingInit(i, q) => q == |s.procs| && pc == Reparenting(i + 1)
    case WakingParent(q) => q == |s.procs| && pc == Exiting
    case _ => false
  }

  predicate Enabled(s: Sys, e: Step) {
    match e
    case Pick(c, p) => c < |s.cpus| && s.cpus[c].doing == Idle && FreeLock(s, p)
    case Unpick(c) => c < |s.cpus| && s.cpus[c].doing.Picked? && s.cpus[c].doing.p < |s.procs|
    case Dispatch(c) => c < |s.cpus| && s.cpus[c].doing.Picked? && s.cpus[c].doing.p < |s.procs|
                        && s.procs[s.cpus[c].doing.p].st == Runnable
    case BackOut(c) => c < |s.cpus| && s.cpus[c].doing.Back? && s.cpus[c].doing.p < |s.procs|
    case Resume(c) => Runs(s, c) && (At(s, c).Off? || At(s, c).Asleep?)
    case Preempt(c) => Runs(s, c) && NoSpin(At(s, c)) && FreeLock(s, Me(s, c))
    case YieldOut(c) => Runs(s, c) && At(s, c).Yielding?
    case Register(c) => Runs(s, c) && At(s, c).User? && FreeLock(s, Me(s, c))
    case Doze(c) => Runs(s, c) && At(s, c).Sleepy? && FreeLock(s, Me(s, c))
    case SleepOut(c) => Runs(s, c) && At(s, c).Dozing? && s.procs[Me(s, c)].chan != None
    case SleepNot(c) => Runs(s, c) && At(s, c).Dozing? && s.procs[Me(s, c)].chan == None
    case WakeUp(q) => FreeLock(s, q)
    case Kill(q) => FreeLock(s, q)
    case Alloc(q) => FreeLock(s, q) && s.procs[q].st == Unused
    case Unalloc(q) => FreeLock(s, q) && s.procs[q].st == Used
    case SetParent(q, p) => q < |s.procs| && s.procs[q].st == Used && p < |s.procs| && p != q && s.wl == -1
    case Ready(q) => FreeLock(s, q) && s.procs[q].st == Used
    case Move(c, pc) => Runs(s, c) && Moves(s, Me(s, c), pc)
    case TakeInner(c) => Runs(s, c) && At(s, c).WantInner? && At(s, c).l < |s.inner| && s.inner[At(s, c).l] == -1
    case GetLock(c) => Runs(s, c) && At(s, c).HasInner? && At(s, c).l < |s.inner| && At(s, c).l < |s.locked|
                       && !s.locked[At(s, c).l]
    case Prepare(c) => Runs(s, c) && At(s, c).HasInner? && At(s, c).l < |s.locked| && s.locked[At(s, c).l]
                       && FreeLock(s, Me(s, c))
    case DropInner(c) => Runs(s, c) && At(s, c).Prepared? && At(s, c).l < |s.inner|
    case BeginRelease(c) => Runs(s, c) && At(s, c).WantRelease? && At(s, c).l < |s.inner| && At(s, c).l < |s.locked|
                            && s.inner[At(s, c).l] == -1
    case WakeNext(c) => Runs(s, c) && At(s, c).Waking? && At(s, c).l < |s.inner| && FreeLock(s, At(s, c).q)
    case EndRelease(c) => Runs(s, c) && At(s, c).Waking? && At(s, c).q == |s.procs| && At(s, c).l < |s.inner|
    case TakeWait(c) => Runs(s, c) && At(s, c).WantWait? && s.wl == -1
    case ScanNext(c) => Runs(s, c) && At(s, c).Scanning? && FreeLock(s, At(s, c).i)
                        && s.procs[At(s, c).i].parent == Me(s, c) && s.procs[At(s, c).i].st != Zombie
    case Reap(c) => Runs(s, c) && At(s, c).Scanning? && FreeLock(s, At(s, c).i)
                    && s.procs[At(s, c).i].parent == Me(s, c) && s.procs[At(s, c).i].st == Zombie
    case GiveUp(c) => Runs(s, c) && At(s, c).Scanning?
    case PrepareWait(c) => Runs(s, c) && At(s, c).Scanning? && At(s, c).i == |s.procs| && FreeLock(s, Me(s, c))
    case DropWait(c) => Runs(s, c) && At(s, c).WaitPrepared?
    case TakeExit(c) => Runs(s, c) && At(s, c).WantExit? && s.wl == -1
    case Reparent(c) => Runs(s, c) && At(s, c).Reparenting? && At(s, c).i < |s.procs|
                        && s.procs[At(s, c).i].parent == Me(s, c)
    case WakeInitNext(c) => Runs(s, c) && At(s, c).WakingInit? && FreeLock(s, At(s, c).q)
    case WakeParentNext(c) => Runs(s, c) && At(s, c).WakingParent? && FreeLock(s, At(s, c).q)
    case BeZombie(c) => Runs(s, c) && At(s, c).Exiting? && FreeLock(s, Me(s, c))
    case DropExit(c) => Runs(s, c) && At(s, c).Dying?
    case DeadOut(c) => Runs(s, c) && At(s, c).Dead?
  }

  /** wakeup's critical section for one process. */
  function Woken(x: Proc): Proc { x.(chan := None, st := if x.st == Sleeping then Runnable else x.st) }

  function Put(s: Sys, p: nat, x: Proc): Sys
    requires p < |s.procs|
  {
    s.(procs := s.procs[p := x])
  }

  /** The current process of CPU `c` changes. */
  function Mine(s: Sys, c: nat, x: Proc): Sys
    requires Runs(s, c)
  {
    Put(s, Me(s, c), x)
  }

  function Switch(s: Sys, c: nat, x: Proc): Sys
    requires Runs(s, c)
  {
    Put(s, Me(s, c), x).(cpus := s.cpus[c := s.cpus[c].(doing := Back(Me(s, c)))])
  }

  /** Process `q` is woken if it waits for `ch`. */
  function Wake(s: Sys, q: nat, ch: Chan): Sys
    requires q < |s.procs|
  {
    if s.procs[q].chan == ch then Put(s, q, Woken(s.procs[q])) else s
  }

  /** Scheduling and sleeping. */
  function DoSched(s: Sys, e: Step): Sys
    requires Enabled(s, e)
  {
    match e
    case Pick(c, p) => Put(s, p, s.procs[p].(lock := c)).(cpus := s.cpus[c := Cpu(-1, Picked(p))])
    case Unpick(c) =>
      var p := s.cpus[c].doing.p;
      Put(s, p, s.procs[p].(lock := -1)).(cpus := s.cpus[c := Cpu(-1, Idle)])
    case Dispatch(c) =>
      var p := s.cpus[c].doing.p;
      Put(s, p, s.procs[p].(st := Running, on := c)).(cpus := s.cpus[c := Cpu(p, InProc)])
    case BackOut(c) =>
      var p := s.cpus[c].doing.p;
      Put(s, p, s.procs[p].(lock := -1, on := -1)).(cpus := s.cpus[c := Cpu(-1, Idle)])
    case Resume(c) =>
      var x := s.procs[Me(s, c)];
      Mine(s, c, x.(lock := -1, pc := if x.pc.Off? then x.pc.back else After(x.pc.ch)))
    case Preempt(c) => Mine(s, c, s.procs[Me(s, c)].(lock := c, pc := Yielding(At(s, c))))
    case YieldOut(c) => Switch(s, c, s.procs[Me(s, c)].(st := Runnable, pc := Off(At(s, c).back)))
    case Register(c) => Mine(s, c, s.procs[Me(s, c)].(chan := Other, pc := Sleepy(Other)))
    case Doze(c) => Mine(s, c, s.procs[Me(s, c)].(lock := c, pc := Dozing(At(s, c).ch)))
    case SleepOut(c) => Switch(s, c, s.procs[Me(s, c)].(st := Sleeping, pc := Asleep(At(s, c).ch)))
    case SleepNot(c) => Mine(s, c, s.procs[Me(s, c)].(lock := -1, pc := After(At(s, c).ch)))
    case _ => s
  }

  /** What others do to a process. */
  function DoOthers(s: Sys, e: Step): Sys
    requires Enabled(s, e)
  {
    match e
    case WakeUp(q) => Put(s, q, Woken(s.procs[q]))
    case Kill(q) => Put(s, q, s.procs[q].(st := if s.procs[q].st == Sleeping then Runnable else s.procs[q].st))
    case Alloc(q) => Put(s, q, s.procs[q].(st := Used, chan := None, parent := -1, pc := Off(User)))
    case Unalloc(q) => Put(s, q, s.procs[q].(st := Unused, chan := None, pc := Gone))
    case SetParent(q, p) => Put(s, q, s.procs[q].(parent := p))
    case Ready(q) => Put(s, q, s.procs[q].(st := Runnable))
    case _ => s
  }

  /** Sleep locks. */
  function DoLocks(s: Sys, e: Step): Sys
    requires Enabled(s, e)
  {
    match e
    case Move(c, pc) => Mine(s, c, s.procs[Me(s, c)].(pc := pc))
    case TakeInner(c) =>
      var l := At(s, c).l;
      Mine(s, c, s.procs[Me(s, c)].(pc := HasInner(l))).(inner := s.inner[l := Me(s, c)])
    case GetLock(c) =>
      var l := At(s, c).l;
      Mine(s, c, s.procs[Me(s, c)].(pc := User)).(inner := s.inner[l := -1], locked := s.locked[l := true])
    case Prepare(c) => Mine(s, c, s.procs[Me(s, c)].(chan := LockChan(At(s, c).l), pc := Prepared(At(s, c).l)))
    case DropInner(c) =>
      var l := At(s, c).l;
      Mine(s, c, s.procs[Me(s, c)].(pc := Sleepy(LockChan(l)))).(inner := s.inner[l := -1])
    case BeginRelease(c) =>
      var l := At(s, c).l;
      Mine(s, c, s.procs[Me(s, c)].(pc := Waking(l, 0))).(inner := s.inner[l := Me(s, c)],
                                                          locked := s.locked[l := false])
    case WakeNext(c) =>
      var l, q := At(s, c).l, At(s, c).q;
      var t := Wake(s, q, LockChan(l));
      Put(t, Me(s, c), t.procs[Me(s, c)].(pc := Waking(l, q + 1)))
    case EndRelease(c) => Mine(s, c, s.procs[Me(s, c)].(pc := User)).(inner := s.inner[At(s, c).l := -1])
    case _ => s
  }

  /** Waiting for children. */
  function DoWait(s: Sys, e: Step): Sys
    requires Enabled(s, e)
  {
    match e
    case TakeWait(c) => Mine(s, c, s.procs[Me(s, c)].(pc := Scanning(0))).(wl := Me(s, c))
    case ScanNext(c) => Mine(s, c, s.procs[Me(s, c)].(pc := Scanning(At(s, c).i + 1)))
    case Reap(c) =>
      var i := At(s, c).i;
      var t := Put(s, i, s.procs[i].(st := Unused, chan := None, parent := -1));
      Put(t, Me(s, c), t.procs[Me(s, c)].(pc := User)).(wl := -1)
    case GiveUp(c) => Mine(s, c, s.procs[Me(s, c)].(pc := User)).(wl := -1)
    case PrepareWait(c) => Mine(s, c, s.procs[Me(s, c)].(chan := ProcChan(Me(s, c)), pc := WaitPrepared))
    case DropWait(c) => Mine(s, c, s.procs[Me(s, c)].(pc := Sleepy(ProcChan(Me(s, c))))).(wl := -1)
    case _ => s
  }

  /** Exiting. */
  function DoExit(s: Sys, e: Step): Sys
    requires Enabled(s, e)
  {
    match e
    case TakeExit(c) => Mine(s, c, s.procs[Me(s, c)].(pc := Reparenting(0))).(wl := Me(s, c))
    case Reparent(c) =>
      var i := At(s, c).i;
      var t := Put(s, i, s.procs[i].(parent := INIT));
      Put(t, Me(s, c), t.procs[Me(s, c)].(pc := WakingInit(i, 0)))
    case WakeInitNext(c) =>
      var i, q := At(s, c).i, At(s, c).q;
      var t := Wake(s, q, ProcChan(INIT));
      Put(t, Me(s, c), t.procs[Me(s, c)].(pc := WakingInit(i, q + 1)))
    case WakeParentNext(c) =>
      var q, parent := At(s, c).q, s.procs[Me(s, c)].parent;
      var t := if parent >= 0 then Wake(s, q, ProcChan(parent)) else Wake(s, q, None);
      Put(t, Me(s, c), t.procs[Me(s, c)].(pc := WakingParent(q + 1)))
    case BeZombie(c) => Mine(s, c, s.procs[Me(s, c)].(lock := c, st := Zombie, pc := Dying))
    case DropExit(c) => Mine(s, c, s.procs[Me(s, c)].(pc := Dead)).(wl := -1)
    case DeadOut(c) => Switch(s, c, s.procs[Me(s, c)].(pc := Gone))
    case _ => s
  }

  predicate IsSched(e: Step) {
    || e.Pick? || e.Unpick? || e.Dispatch? || e.BackOut? || e.Resume? || e.Preempt? || e.YieldOut?
    || e.Register? || e.Doze? || e.SleepOut? || e.SleepNot?
  }

  predicate IsWait(e: Step) {
    e.TakeWait? || e.ScanNext? || e.Reap? || e.GiveUp? || e.PrepareWait? || e.DropWait?
  }

  predicate IsOthers(e: Step) {
    e.WakeUp? || e.Kill? || e.Alloc? || e.Unalloc? || e.SetParent? || e.Ready?
  }

  predicate IsLocks(e: Step) {
    || IsOthers(e) || e.Move? || e.TakeInner? || e.GetLock? || e.Prepare? || e.DropInner? || e.BeginRelease?
       || e.WakeNext? || e.EndRelease?
  }

  function Do(s: Sys, e: Step): Sys
    requires Enabled(s, e)
  {
    if IsSched(e) then DoSched(s, e)
    else if IsOthers(e) then DoOthers(s, e)
    else if IsLocks(e) then DoLocks(s, e)
    else if IsWait(e) then DoWait(s, e)
    else DoExit(s, e)
  }

  // ---------------------------------------------------------------- who runs where

  lemma {:induction false} OnCpuOk(s: Sys, p: nat)
    requires RunInv(s) && p < NPROC
    ensures -1 <= s.procs[p].on < NCPU && (s.procs[p].on >= 0 ==> CpuOk(s, s.procs[p].on))
  {
    assert ProcOk(s, p);
  }

  /** CPU `c` has no objection to process `p` becoming `x`. */
  ghost predicate CpuAllows(u: Cpu, c: nat, p: nat, x: Proc) {
    match u.doing
    case Idle => true
    case Picked(q) => q == p ==> x.lock == c
    case InProc => u.cur == p ==> RunOk(x, c)
    case Back(q) => q == p ==> x.lock == c && Parked(x.pc) && x.st != Running && x.st != Unused && x.st != Used
  }

  /** One process changes. */
  lemma {:induction false} PutRun(s: Sys, p: nat, x: Proc)
    requires RunInv(s) && p < NPROC && x.on == s.procs[p].on && PlaceOk(x, p)
    requires forall c :: 0 <= c < NCPU ==> CpuAllows(s.cpus[c], c, p, x)
    ensures RunInv(Put(s, p, x))
  {
    var s' := Put(s, p, x);
    forall c | 0 <= c < NCPU ensures CpuOk(s', c) {
      assert CpuOk(s, c) && CpuAllows(s.cpus[c], c, p, x);
    }
    forall q | 0 <= q < NPROC ensures ProcOk(s', q) {
      assert ProcOk(s, q);
    }
  }

  /** A process whose lock is free is changed by someone who holds it for the while. */
  lemma {:induction false} OthersRun(s: Sys, q: nat, x: Proc)
    requires RunInv(s) && FreeLock(s, q) && x.on == s.procs[q].on && x.lock == -1 && PlaceOk(x, q)
    requires s.procs[q].on >= 0 ==> x.pc == s.procs[q].pc && x.st == s.procs[q].st
    ensures RunInv(Put(s, q, x))
  {
    forall c | 0 <= c < NCPU ensures CpuAllows(s.cpus[c], c, q, x) {
      assert CpuOk(s, c);
    }
    PutRun(s, q, x);
  }

  /** The process that CPU `c` executes changes. */
  lemma {:induction false} MineRun(s: Sys, c: nat, x: Proc)
    requires RunInv(s) && c < NCPU && Runs(s, c) && x.on == s.procs[Me(s, c)].on && PlaceOk(x, Me(s, c)) && RunOk(x, c)
    requires s.procs[Me(s, c)].lock in {x.lock, -1, c}
    ensures RunInv(Mine(s, c, x))
  {
    var p := Me(s, c);
    assert CpuOk(s, c) && ProcOk(s, p);
    forall d | 0 <= d < NCPU ensures CpuAllows(s.cpus[d], d, p, x) {
      assert CpuOk(s, d);
    }
    PutRun(s, p, x);
  }

  /** It switches to the scheduler, holding its lock. */
  lemma {:induction false} SwitchRun(s: Sys, c: nat, x: Proc)
    requires RunInv(s) && c < NCPU && Runs(s, c) && x.on == s.procs[Me(s, c)].on && PlaceOk(x, Me(s, c))
    requires s.procs[Me(s, c)].lock == x.lock == c && Parked(x.pc) && x.st != Running && x.st != Unused && x.st != Used
    ensures RunInv(Switch(s, c, x))
  {
    var p, s' := Me(s, c), Switch(s, c, x);
    assert CpuOk(s, c) && ProcOk(s, p);
    forall d | 0 <= d < NCPU ensures CpuOk(s', d) {
      assert CpuOk(s, d);
    }
    forall q | 0 <= q < NPROC ensures ProcOk(s', q) {
      assert ProcOk(s, q);
    }
  }

  /** The scheduler takes or leaves a process's lock. */
  lemma {:induction false} PickRun(s: Sys, e: Step)
    requires RunInv(s) && Enabled(s, e) && (e.Pick? || e.Unpick?)
    ensures RunInv(Do(s, e))
  {
    var s', c := Do(s, e), e.c;
    var p := if e.Pick? then e.p else s.cpus[c].doing.p;
    assert CpuOk(s, c) && ProcOk(s, p);
    OnCpuOk(s, p);
    forall d | 0 <= d < NCPU ensures CpuOk(s', d) {
      assert CpuOk(s, d);
    }
    forall q | 0 <= q < NPROC ensures ProcOk(s', q) {
      assert ProcOk(s, q);
    }
  }

  /** The scheduler switches to a process, or goes on after it switched back. */
  lemma {:induction false} DispatchRun(s: Sys, e: Step)
    requires RunInv(s) && Enabled(s, e) && (e.Dispatch? || e.BackOut?)
    ensures RunInv(Do(s, e))
  {
    var s', c, p := Do(s, e), e.c, s.cpus[e.c].doing.p;
    assert CpuOk(s, c) && ProcOk(s, p);
    OnCpuOk(s, p);
    forall d | 0 <= d < NCPU ensures CpuOk(s', d) {
      assert CpuOk(s, d);
    }
    forall q | 0 <= q < NPROC ensures ProcOk(s', q) {
      assert ProcOk(s, q);
    }
  }

  /** Steps in which the running process changes only itself. */
  lemma {:induction false} SelfRun(s: Sys, e: Step)
    requires RunInv(s) && Enabled(s, e) && (e.Resume? || e.Preempt? || e.Register?)
    ensures RunInv(Do(s, e))
  {
    assert CpuOk(s, e.c) && ProcOk(s, Me(s, e.c));
    MineRun(s, e.c, Do(s, e).procs[Me(s, e.c)]);
  }

  lemma {:induction false} DozeRun(s: Sys, e: Step)
    requires RunInv(s) && Enabled(s, e) && (e.Doze? || e.SleepNot?)
    ensures RunInv(Do(s, e))
  {
    assert CpuOk(s, e.c) && ProcOk(s, Me(s, e.c));
    MineRun(s, e.c, Do(s, e).procs[Me(s, e.c)]);
  }

  lemma {:induction false} OutRun(s: Sys, e: Step)
    requires RunInv(s) && Enabled(s, e) && (e.YieldOut? || e.SleepOut?)
    ensures RunInv(Do(s, e))
  {
    assert CpuOk(s, e.c) && ProcOk(s, Me(s, e.c));
    SwitchRun(s, e.c, Do(s, e).procs[Me(s, e.c)]);
  }

  lemma {:induction false} SchedRun(s: Sys, e: Step)
    requires RunInv(s) && Enabled(s, e) && IsSched(e)
    ensures RunInv(Do(s, e))
  {
    if e.Pick? || e.Unpick? {
      PickRun(s, e);
    } else if e.Dispatch? || e.BackOut? {
      DispatchRun(s, e);
    } else if e.YieldOut? || e.SleepOut? {
      OutRun(s, e);
    } else if e.Doze? || e.SleepNot? {
      DozeRun(s, e);
    } else {
      SelfRun(s, e);
    }
  }

  /** Wakeups leave a process where it is. */
  lemma {:induction false} WokenRun(s: Sys, q: nat, ch: Chan)
    requires RunInv(s) && FreeLock(s, q)
    ensures RunInv(Wake(s, q, ch)) && RunInv(Put(s, q, Woken(s.procs[q])))
    ensures forall p :: 0 <= p < NPROC ==>
              Wake(s, q, ch).procs[p].pc == s.procs[p].pc && Wake(s, q, ch).procs[p].lock == s.procs[p].lock
    ensures forall p :: 0 <= p < NPROC && s.procs[p].st == Running ==> Wake(s, q, ch).procs[p].st == Running
  {
    assert ProcOk(s, q);
    OnCpuOk(s, q);
    OthersRun(s, q, Woken(s.procs[q]));
  }

  lemma {:induction false} LocksRun(s: Sys, e: Step)
    requires RunInv(s) && Enabled(s, e) && IsLocks(e)
    ensures RunInv(Do(s, e))
  {
    if e.WakeUp? {
      WokenRun(s, e.q, None);
    } else if e.SetParent? {
      SetParentRun(s, e);
    } else if e.Kill? || e.Alloc? || e.Unalloc? || e.Ready? {
      AnyoneRun(s, e);
    } else if e.WakeNext? {
      var c, p := e.c, Me(s, e.c);
      WakeThenMove(s, c, At(s, c).q, LockChan(At(s, c).l), Waking(At(s, c).l, At(s, c).q + 1));
    } else if e.Move? {
      MoveRun(s, e);
    } else if e.BeginRelease? || e.EndRelease? {
      UnlockRun(s, e);
    } else {
      LockRun(s, e);
    }
  }

  /** kfork sets the child's parent under wait_lock alone; a scheduler may hold the child's lock. */
  lemma {:induction false} SetParentRun(s: Sys, e: Step)
    requires RunInv(s) && Enabled(s, e) && e.SetParent?
    ensures RunInv(Do(s, e))
  {
    var x := s.procs[e.q].(parent := e.p);
    assert ProcOk(s, e.q);
    forall d | 0 <= d < NCPU ensures CpuAllows(s.cpus[d], d, e.q, x) {
      assert CpuOk(s, d);
    }
    PutRun(s, e.q, x);
  }

  lemma {:induction false} AnyoneRun(s: Sys, e: Step)
    requires RunInv(s) && Enabled(s, e) && (e.Kill? || e.Alloc? || e.Unalloc? || e.Ready?)
    ensures RunInv(Do(s, e))
  {
    assert ProcOk(s, e.q);
    OnCpuOk(s, e.q);
    OthersRun(s, e.q, Do(s, e).procs[e.q]);
  }

  /** A process wakes another and goes on. */
  lemma {:induction false} WakeThenMove(s: Sys, c: nat, q: nat, ch: Chan, pc: Pc)
    requires RunInv(s) && Runs(s, c) && FreeLock(s, q) && !OwnLock(At(s, c))
             && (pc.Waking? || pc.WakingInit? || pc.WakingParent?)
    requires Me(s, c) == INIT ==> !ExitPc(pc)
    ensures var t := Wake(s, q, ch); RunInv(Put(t, Me(s, c), t.procs[Me(s, c)].(pc := pc)))
  {
    var p, t := Me(s, c), Wake(s, q, ch);
    assert CpuOk(s, c) && ProcOk(s, p);
    WokenRun(s, q, ch);
    assert CpuOk(t, c) && ProcOk(t, p);
    MineRun(t, c, t.procs[p].(pc := pc));
  }

  /** wait frees a zombie child. */
  lemma {:induction false} ReapRun(s: Sys, c: nat)
    requires RunInv(s) && Enabled(s, Reap(c))
    ensures RunInv(Do(s, Reap(c)))
  {
    var p, i := Me(s, c), At(s, c).i;
    assert CpuOk(s, c) && ProcOk(s, p) && ProcOk(s, i);
    OnCpuOk(s, i);
    var x := s.procs[i].(st := Unused, chan := None, parent := -1);
    OthersRun(s, i, x);
    GoRun(Put(s, i, x), Do(s, Reap(c)), c, s.procs[p].chan, User);
  }

  /** exit gives a child to init, without holding the child's lock. */
  lemma {:induction false} ReparentRun(s: Sys, c: nat)
    requires RunInv(s) && Enabled(s, Reparent(c))
    ensures RunInv(Do(s, Reparent(c)))
  {
    var p, i := Me(s, c), At(s, c).i;
    assert CpuOk(s, c) && ProcOk(s, p) && ProcOk(s, i);
    var x := s.procs[i].(parent := INIT);
    forall d | 0 <= d < NCPU ensures CpuAllows(s.cpus[d], d, i, x) {
      assert CpuOk(s, d);
    }
    PutRun(s, i, x);
    GoRun(Put(s, i, x), Do(s, Reparent(c)), c, s.procs[p].chan, WakingInit(i, 0));
  }

  /** A running process goes elsewhere, perhaps registering on the way. */
  lemma {:induction false} GoRun(s: Sys, s': Sys, c: nat, chan: Chan, pc: Pc)
    requires RunInv(s) && Runs(s, c) && !OwnLock(At(s, c)) && !OwnLock(pc) && !pc.Gone? && ChanOk(pc, chan, Me(s, c))
    requires Me(s, c) == INIT ==> !ExitPc(pc)
    requires Shape(s') && s'.cpus == s.cpus && s'.procs
             == s.procs[Me(s, c) := s.procs[Me(s, c)].(chan := chan, pc := pc)]
    ensures RunInv(s')
  {
    assert CpuOk(s, c) && ProcOk(s, Me(s, c));
    var x := s.procs[Me(s, c)].(chan := chan, pc := pc);
    MineRun(s, c, x);
    RunIgnores(Mine(s, c, x), s');
  }

  lemma {:induction false} LockRun(s: Sys, e: Step)
    requires RunInv(s) && Enabled(s, e) && (e.TakeInner? || e.GetLock? || e.Prepare? || e.DropInner?)
    ensures RunInv(Do(s, e))
  {
    assert CpuOk(s, e.c) && ProcOk(s, Me(s, e.c));
    var x := Do(s, e).procs[Me(s, e.c)];
    GoRun(s, Do(s, e), e.c, x.chan, x.pc);
  }

  lemma {:induction false} UnlockRun(s: Sys, e: Step)
    requires RunInv(s) && Enabled(s, e) && (e.BeginRelease? || e.EndRelease?)
    ensures RunInv(Do(s, e))
  {
    assert CpuOk(s, e.c) && ProcOk(s, Me(s, e.c));
    var x := Do(s, e).procs[Me(s, e.c)];
    GoRun(s, Do(s, e), e.c, x.chan, x.pc);
  }

  lemma {:induction false} MoveRun(s: Sys, e: Step)
    requires RunInv(s) && Enabled(s, e) && e.Move?
    ensures RunInv(Do(s, e))
  {
    assert CpuOk(s, e.c) && ProcOk(s, Me(s, e.c));
    GoRun(s, Do(s, e), e.c, s.procs[Me(s, e.c)].chan, e.pc);
  }

  /** The other locks do not matter here. */
  lemma {:induction false} RunIgnores(s: Sys, s': Sys)
    requires RunInv(s) && s'.procs == s.procs && s'.cpus == s.cpus && Shape(s')
    ensures RunInv(s')
  {
    forall c | 0 <= c < NCPU ensures CpuOk(s', c) {
      assert CpuOk(s, c);
    }
    forall p | 0 <= p < NPROC ensures ProcOk(s', p) {
      assert ProcOk(s, p);
    }
  }

  lemma {:induction false} ZombieRun(s: Sys, e: Step)
    requires RunInv(s) && Enabled(s, e) && (e.BeZombie? || e.DropExit? || e.DeadOut?)
    ensures RunInv(Do(s, e))
  {
    var c, p := e.c, Me(s, e.c);
    assert CpuOk(s, c) && ProcOk(s, p);
    var x := Do(s, e).procs[p];
    if e.DeadOut? {
      SwitchRun(s, c, x);
    } else {
      MineRun(s, c, x);
      RunIgnores(Mine(s, c, x), Do(s, e));
    }
  }

  lemma {:induction false} WakersRun(s: Sys, e: Step)
    requires RunInv(s) && Enabled(s, e) && (e.WakeInitNext? || e.WakeParentNext?)
    ensures RunInv(Do(s, e))
  {
    var c, p := e.c, Me(s, e.c);
    assert CpuOk(s, c) && ProcOk(s, p);
    if e.WakeInitNext? {
      WakeThenMove(s, c, At(s, c).q, ProcChan(INIT), WakingInit(At(s, c).i, At(s, c).q + 1));
    } else {
      WakeThenMove(s, c, At(s, c).q, if s.procs[p].parent >= 0 then ProcChan(s.procs[p].parent)
                   else None, WakingParent(At(s, c).q + 1));
    }
  }

  lemma {:induction false} WaitRun(s: Sys, e: Step)
    requires RunInv(s) && Enabled(s, e) && (e.TakeWait? || e.ScanNext?)
    ensures RunInv(Do(s, e))
  {
    assert CpuOk(s, e.c) && ProcOk(s, Me(s, e.c));
    GoRun(s, Do(s, e), e.c, s.procs[Me(s, e.c)].chan, Do(s, e).procs[Me(s, e.c)].pc);
  }

  lemma {:induction false} LeaveRun(s: Sys, e: Step)
    requires RunInv(s) && Enabled(s, e) && (e.GiveUp? || e.TakeExit?)
    ensures RunInv(Do(s, e))
  {
    assert CpuOk(s, e.c) && ProcOk(s, Me(s, e.c));
    GoRun(s, Do(s, e), e.c, s.procs[Me(s, e.c)].chan, if e.GiveUp? then User else Reparenting(0));
  }

  lemma {:induction false} WaitSleepRun(s: Sys, e: Step)
    requires RunInv(s) && Enabled(s, e) && (e.PrepareWait? || e.DropWait?)
    ensures RunInv(Do(s, e))
  {
    var c, p := e.c, Me(s, e.c);
    assert CpuOk(s, c) && ProcOk(s, p);
    if e.PrepareWait? {
      GoRun(s, Do(s, e), c, ProcChan(p), WaitPrepared);
    } else {
      GoRun(s, Do(s, e), c, s.procs[p].chan, Sleepy(ProcChan(p)));
    }
  }

  /** Every step keeps track of who runs where. */
  lemma {:induction false} StepRun(s: Sys, e: Step)
    requires RunInv(s) && Enabled(s, e)
    ensures RunInv(Do(s, e))
  {
    if IsSched(e) {
      SchedRun(s, e);
    } else if IsLocks(e) {
      LocksRun(s, e);
    } else if e.WakeInitNext? || e.WakeParentNext? {
      WakersRun(s, e);
    } else if e.Reap? {
      ReapRun(s, e.c);
    } else if e.Reparent? {
      ReparentRun(s, e.c);
    } else if e.BeZombie? || e.DropExit? || e.DeadOut? {
      ZombieRun(s, e);
    } else if e.PrepareWait? || e.DropWait? {
      WaitSleepRun(s, e);
    } else if e.GiveUp? || e.TakeExit? {
      LeaveRun(s, e);
    } else {
      WaitRun(s, e);
    }
  }

  /** Single execution: when a process's lock is free, the process is running exactly when it
      is the current process of a CPU, and of one only. */
  lemma {:induction false} SingleExecution(s: Sys, p: nat)
    requires RunInv(s) && p < NPROC && s.procs[p].lock == -1
    ensures s.procs[p].st == Running <==> exists c :: 0 <= c < NCPU && s.cpus[c].cur == p
    ensures forall c, d :: 0 <= c < NCPU && 0 <= d < NCPU && s.cpus[c].cur == p && s.cpus[d].cur == p ==> c == d
  {
    assert ProcOk(s, p);
    forall c | 0 <= c < NCPU && s.cpus[c].cur == p ensures s.procs[p].st == Running && s.procs[p].on == c {
      assert CpuOk(s, c);
    }
  }

  /** The process whose lock a switch, or the release after one, is about. */
  function Switched(s: Sys, e: Step): int
    requires Enabled(s, e) && (e.Dispatch? || e.BackOut? || e.YieldOut? || e.SleepOut? || e.DeadOut? || e.Resume?)
  {
    if e.Dispatch? || e.BackOut? then s.cpus[e.c].doing.p else s.cpus[e.c].cur
  }

  /** The CPU that switches holds the process's lock before and after, in either direction; and
      whoever releases it on the other side, the scheduler or the process, is on the CPU that
      holds it. */
  lemma {:induction false} LockAcrossSwitch(s: Sys, e: Step)
    requires RunInv(s) && Enabled(s, e)
             && (e.Dispatch? || e.BackOut? || e.YieldOut? || e.SleepOut? || e.DeadOut? || e.Resume?)
    ensures 0 <= Switched(s, e) < NPROC && s.procs[Switched(s, e)].lock == e.c
    ensures Do(s, e).procs[Switched(s, e)].lock == if e.Resume? || e.BackOut? then -1 else e.c
  {
    assert CpuOk(s, e.c);
  }

  // ---------------------------------------------------------------- who waits for what

  /** What is known of a CPU and of the process it executes. */
  lemma {:induction false} Here(s: Sys, c: nat)
    requires Inv(s) && c < |s.cpus|
    ensures Shape(s) && CpuOk(s, c) && (Runs(s, c) ==> ProcOk(s, Me(s, c)))
  {
    UnfoldRun(s);
  }

  lemma {:induction false} There(s: Sys, p: nat)
    requires Inv(s) && p < |s.procs|
    ensures Shape(s) && ProcOk(s, p)
  {
    UnfoldRun(s);
  }

  /** Holding neither an inner lock nor wait_lock. */
  predicate Plain(pc: Pc) { !pc.HasInner? && !pc.Prepared? && !pc.Waking? && !HoldsWait(pc) }

  /** Process `p` changes, but does not begin to wait, to be a zombie child, or to hold locks. */
  ghost predicate Quiet(x: Proc, x': Proc, p: nat) {
    && ((x'.pc == x.pc && x'.parent == x.parent) || (Plain(x.pc) && Plain(x'.pc)))
    && (forall l :: Waits(x', LockChan(l)) ==> Waits(x, LockChan(l)))
    && (Waits(x', ProcChan(p)) ==> Waits(x, ProcChan(p)))
    && (x'.st == Zombie ==> x.st == Zombie && x'.parent == x.parent)
  }

  lemma {:induction false} QuietHolders(s: Sys, s': Sys, p: nat, x': Proc)
    requires Shape(s) && HoldersOk(s) && Shape(s') && p < NPROC && s'.procs == s.procs[p := x']
             && Quiet(s.procs[p], x', p)
    requires s'.locked == s.locked && s'.inner == s.inner && s'.wl == s.wl
    ensures HoldersOk(s')
  {
    forall q | 0 <= q < NPROC ensures SameHolds(s.procs[q].pc, s'.procs[q].pc) {
    }
    SameHolders(s, s');
  }

  /** The same locks are held at the two places. */
  ghost predicate SameHolds(a: Pc, b: Pc) {
    && (HoldsWait(a) <==> HoldsWait(b)) && (forall l :: HoldsInner(a, l) <==> HoldsInner(b, l))
    && (b.Prepared? ==> a == b)
  }

  lemma {:induction false} SameHolders(s: Sys, s': Sys)
    requires Shape(s) && HoldersOk(s) && Shape(s') && s'.locked == s.locked && s'.inner == s.inner && s'.wl == s.wl
    requires forall q :: 0 <= q < NPROC ==> SameHolds(s.procs[q].pc, s'.procs[q].pc)
    ensures HoldersOk(s')
  {
  }

  lemma {:induction false} QuietSleepers(s: Sys, s': Sys, p: nat, x': Proc)
    requires Shape(s) && SleepersOk(s) && Shape(s') && p < NPROC && s'.procs == s.procs[p := x']
             && Quiet(s.procs[p], x', p)
    requires s'.locked == s.locked && s'.inner == s.inner
    ensures SleepersOk(s')
  {
    forall q, l | 0 <= q < NPROC && 0 <= l < NLOCKS && Waits(s'.procs[q], LockChan(l))
      ensures s'.locked[l] || WakeComing(s', l, q)
    {
      assert Waits(s.procs[q], LockChan(l));
    }
  }

  lemma {:induction false} QuietBody(s: Sys, s': Sys, p: nat, x': Proc)
    requires WaitInv(s) && Shape(s') && p < NPROC && s'.procs == s.procs[p := x'] && Quiet(s.procs[p], x', p)
    requires s'.locked == s.locked && s'.inner == s.inner && s'.wl == s.wl
    ensures WaitInv(s')
  {
    QuietHolders(s, s', p, x');
    QuietSleepers(s, s', p, x');
    forall w | 0 <= w < NPROC ensures WaitersOk(s', w) {
      assert WaitersOk(s, w);
    }
  }

  lemma {:induction false} QuietStep(s: Sys, s': Sys, p: nat, x': Proc)
    requires WaitOk(s) && Shape(s) && Shape(s') && p < NPROC && s'.procs == s.procs[p := x'] && Quiet(s.procs[p], x', p)
    requires s'.locked == s.locked && s'.inner == s.inner && s'.wl == s.wl
    ensures WaitOk(s')
  {
    Unfold(s);
    QuietBody(s, s', p, x');
    Unfold(s');
  }

  lemma {:induction false} SchedulerWait(s: Sys, e: Step)
    requires Inv(s) && Enabled(s, e) && (e.Pick? || e.Unpick? || e.Dispatch? || e.BackOut?)
    ensures WaitOk(Do(s, e))
  {
    Here(s, e.c);
    var p := if e.Pick? then e.p else s.cpus[e.c].doing.p;
    There(s, p);
    QuietStep(s, Do(s, e), p, Do(s, e).procs[p]);
  }

  lemma {:induction false} ResumeWait(s: Sys, e: Step)
    requires Inv(s) && Enabled(s, e) && e.Resume?
    ensures WaitOk(Do(s, e))
  {
    Here(s, e.c);
    var p := Me(s, e.c);
    QuietStep(s, Do(s, e), p, Do(s, e).procs[p]);
  }

  lemma {:induction false} SwitchWait(s: Sys, e: Step)
    requires Inv(s) && Enabled(s, e) && (e.Preempt? || e.YieldOut?)
    ensures WaitOk(Do(s, e))
  {
    Here(s, e.c);
    var p := Me(s, e.c);
    QuietStep(s, Do(s, e), p, Do(s, e).procs[p]);
  }

  lemma {:induction false} RegisterWait(s: Sys, e: Step)
    requires Inv(s) && Enabled(s, e) && (e.Register? || e.Doze?)
    ensures WaitOk(Do(s, e))
  {
    Here(s, e.c);
    var p := Me(s, e.c);
    QuietStep(s, Do(s, e), p, Do(s, e).procs[p]);
  }

  lemma {:induction false} SleepWait(s: Sys, e: Step)
    requires Inv(s) && Enabled(s, e) && (e.SleepOut? || e.SleepNot?)
    ensures WaitOk(Do(s, e))
  {
    Here(s, e.c);
    var p := Me(s, e.c);
    QuietStep(s, Do(s, e), p, Do(s, e).procs[p]);
  }

  lemma {:induction false} AnyoneWait(s: Sys, e: Step)
    requires Inv(s) && Enabled(s, e) && (e.WakeUp? || e.Kill? || e.Alloc? || e.Unalloc? || e.SetParent? || e.Ready?)
    ensures WaitOk(Do(s, e))
  {
    There(s, e.q);
    QuietStep(s, Do(s, e), e.q, Do(s, e).procs[e.q]);
  }

  // wait_lock

  predicate NoInner(pc: Pc) { !pc.HasInner? && !pc.Prepared? && !pc.Waking? }

  lemma {:induction false} WlHolders(s: Sys, s': Sys, w: nat, x': Proc)
    requires Shape(s) && HoldersOk(s) && Shape(s') && w < NPROC && s'.procs == s.procs[w := x']
    requires s'.locked == s.locked && s'.inner == s.inner
    requires NoInner(s.procs[w].pc) && NoInner(x'.pc) && (s.wl == -1 || s.wl == w)
             && s'.wl == if HoldsWait(x'.pc) then w else -1
    ensures HoldersOk(s') && forall v :: 0 <= v < NPROC && v != w ==> !HoldsWait(s.procs[v].pc)
  {
    forall v | 0 <= v < NPROC && v != w ensures !HoldsWait(s.procs[v].pc) {
    }
  }

  lemma {:induction false} WlSleepers(s: Sys, s': Sys, w: nat, x': Proc)
    requires Shape(s) && SleepersOk(s) && Shape(s') && w < NPROC && s'.procs == s.procs[w := x']
    requires s'.locked == s.locked && s'.inner == s.inner && NoInner(s.procs[w].pc) && NoInner(x'.pc)
    requires forall l :: Waits(x', LockChan(l)) ==> Waits(s.procs[w], LockChan(l))
    ensures SleepersOk(s')
  {
    forall q, l | 0 <= q < NPROC && 0 <= l < NLOCKS && Waits(s'.procs[q], LockChan(l))
      ensures s'.locked[l] || WakeComing(s', l, q)
    {
      assert Waits(s.procs[q], LockChan(l));
    }
  }

  /** Process `w`, the only one that can hold wait_lock, takes it, keeps it or gives it up. */
  lemma {:induction false} WlStep(s: Sys, s': Sys, w: nat, x': Proc)
    requires WaitOk(s) && Shape(s) && Shape(s') && w < NPROC && s'.procs == s.procs[w := x'] && s'.locked == s.locked
             && s'.inner == s.inner
    requires NoInner(s.procs[w].pc) && NoInner(x'.pc) && (s.wl == -1 || s.wl == w)
             && s'.wl == if HoldsWait(x'.pc) then w else -1
    requires forall l :: Waits(x', LockChan(l)) ==> Waits(s.procs[w], LockChan(l))
    requires ParentsOk(s') && WaitersOk(s', w)
    ensures WaitOk(s')
  {
    Unfold(s);
    WlHolders(s, s', w, x');
    WlSleepers(s, s', w, x');
    forall v | 0 <= v < NPROC ensures WaitersOk(s', v) {
      assert v != w ==> !HoldsWait(s.procs[v].pc) && s'.procs[v] == s.procs[v];
    }
    Unfold(s');
  }

  /** What is known at a place where wait_lock is held. */
  lemma {:induction false} WlFacts(s: Sys, w: nat)
    requires WaitOk(s) && Shape(s) && w < NPROC
    ensures (HoldsWait(s.procs[w].pc) ==> s.wl == w) && ParentsOk(s) && WaitersOk(s, w)
  {
    Unfold(s);
  }

  /** Nobody begins to wait for children and no child becomes a zombie. */
  lemma {:induction false} ParentsSame(s: Sys, s': Sys, w: nat, x': Proc)
    requires ParentsOk(s) && Shape(s) && Shape(s') && w < NPROC && s'.procs == s.procs[w := x']
    requires x'.st == s.procs[w].st && x'.parent == s.procs[w].parent
             && (Waits(x', ProcChan(w)) ==> Waits(s.procs[w], ProcChan(w)))
    requires InitWakeComing(s) ==> InitWakeComing(s') || !Waits(s'.procs[INIT], ProcChan(INIT))
    ensures ParentsOk(s')
  {
  }

  /** Process `w` goes elsewhere in wait or exit, waking nobody. */
  lemma {:induction false} WlGo(s: Sys, s': Sys, w: nat, pc: Pc)
    requires WaitOk(s) && Shape(s) && Shape(s') && w < NPROC && s'.procs == s.procs[w := s.procs[w].(pc := pc)]
    requires s'.locked == s.locked && s'.inner == s.inner && NoInner(s.procs[w].pc) && NoInner(pc)
    requires (HoldsWait(s.procs[w].pc) || s.wl == -1) && s'.wl == if HoldsWait(pc) then w else -1
    requires !s.procs[w].pc.WakingInit? || s.procs[w].pc.q > INIT
    requires Committed(pc, ProcChan(w)) ==> s.procs[w].pc.WaitPrepared?
    requires forall l :: !Waits(s'.procs[w], LockChan(l))
    requires WaitersOk(s, w) ==> WaitersOk(s', w)
    ensures WaitOk(s')
  {
    WlFacts(s, w);
    ParentsSame(s, s', w, s'.procs[w]);
    WlStep(s, s', w, s'.procs[w]);
  }

  /** wait passes over slot `i`: no child, or one that is not a zombie. */
  lemma {:induction false} ScanGoes(s: Sys, s': Sys, p: nat, i: nat)
    requires WaitOk(s) && Shape(s) && p < NPROC && i < NPROC && s.procs[p].pc == Scanning(i)
    requires s.procs[i].parent != p || s.procs[i].st != Zombie
    requires s' == Put(s, p, s.procs[p].(pc := Scanning(i + 1)))
    ensures WaitOk(s')
  {
    WlFacts(s, p);
    WlGo(s, s', p, Scanning(i + 1));
  }

  /** exit goes on to the next slot, or to waking its parent. */
  lemma {:induction false} ExitGoes(s: Sys, s': Sys, p: nat, pc: Pc)
    requires WaitOk(s) && Shape(s) && p < NPROC && (s.procs[p].pc.Reparenting? || s.procs[p].pc.WakingInit?)
    requires s.procs[p].pc.WakingInit? ==> s.procs[p].pc.q == NPROC
    requires pc.Reparenting? || pc == WakingParent(0)
    requires s' == Put(s, p, s.procs[p].(pc := pc))
    ensures WaitOk(s')
  {
    WlFacts(s, p);
    WlGo(s, s', p, pc);
  }

  lemma {:induction false} ParentWoken(s: Sys, s': Sys, p: nat)
    requires WaitOk(s) && Shape(s) && p < NPROC && s.procs[p].pc == WakingParent(NPROC) && s.procs[p].parent < NPROC
    requires s' == Put(s, p, s.procs[p].(pc := Exiting))
    ensures WaitOk(s')
  {
    WlFacts(s, p);
    WlGo(s, s', p, Exiting);
  }

  lemma {:induction false} MoveWait(s: Sys, e: Step)
    requires Inv(s) && Enabled(s, e) && e.Move?
    ensures WaitOk(Do(s, e))
  {
    Here(s, e.c);
    var p, s' := Me(s, e.c), Do(s, e);
    if s.procs[p].pc.User? {
      UserGoes(s, s', p, e.pc);
    } else if s.procs[p].pc.Scanning? {
      ScanGoes(s, s', p, s.procs[p].pc.i);
    } else if s.procs[p].pc.WakingParent? {
      ParentWoken(s, s', p);
    } else {
      ExitGoes(s, s', p, e.pc);
    }
  }

  lemma {:induction false} UserGoes(s: Sys, s': Sys, p: nat, pc: Pc)
    requires WaitOk(s) && Shape(s) && p < NPROC && s.procs[p].pc.User?
    requires pc.WantInner? || pc.WantRelease? || pc == WantWait || pc == WantExit
    requires s' == Put(s, p, s.procs[p].(pc := pc))
    ensures WaitOk(s')
  {
    QuietStep(s, s', p, s'.procs[p]);
  }

  lemma {:induction false} TakesWait(s: Sys, e: Step)
    requires Inv(s) && Enabled(s, e) && (e.TakeWait? || e.TakeExit?)
    ensures WaitOk(Do(s, e))
  {
    Here(s, e.c);
    var p := Me(s, e.c);
    WlGo(s, Do(s, e), p, if e.TakeWait? then Scanning(0) else Reparenting(0));
  }

  lemma {:induction false} GivesUp(s: Sys, e: Step)
    requires Inv(s) && Enabled(s, e) && e.GiveUp?
    ensures WaitOk(Do(s, e))
  {
    Here(s, e.c);
    WlGo(s, Do(s, e), Me(s, e.c), User);
  }

  lemma {:induction false} DropExitWait(s: Sys, e: Step)
    requires Inv(s) && Enabled(s, e) && e.DropExit?
    ensures WaitOk(Do(s, e))
  {
    Here(s, e.c);
    WlGo(s, Do(s, e), Me(s, e.c), Dead);
  }

  lemma {:induction false} DropWaitWait(s: Sys, e: Step)
    requires Inv(s) && Enabled(s, e) && e.DropWait?
    ensures WaitOk(Do(s, e))
  {
    Here(s, e.c);
    WlGo(s, Do(s, e), Me(s, e.c), Sleepy(ProcChan(Me(s, e.c))));
  }

  lemma {:induction false} ScanWait(s: Sys, e: Step)
    requires Inv(s) && Enabled(s, e) && e.ScanNext?
    ensures WaitOk(Do(s, e))
  {
    Here(s, e.c);
    ScanGoes(s, Do(s, e), Me(s, e.c), At(s, e.c).i);
  }

  /** A parent that has seen all its children registers. */
  lemma {:induction false} PrepareWaitWait(s: Sys, e: Step)
    requires Inv(s) && Enabled(s, e) && e.PrepareWait?
    ensures WaitOk(Do(s, e))
  {
    Here(s, e.c);
    var p, s' := Me(s, e.c), Do(s, e);
    WlFacts(s, p);
    AllSeen(s, s', p);
    WlStep(s, s', p, s'.procs[p]);
  }

  lemma {:induction false} AllSeen(s: Sys, s': Sys, p: nat)
    requires ParentsOk(s) && Shape(s) && Shape(s') && p < NPROC && s.wl == p && s.procs[p].pc == Scanning(NPROC)
             && WaitersOk(s, p)
    requires s'.procs == s.procs[p := s.procs[p].(chan := ProcChan(p), pc := WaitPrepared)]
    ensures ParentsOk(s')
  {
  }

  lemma {:induction false} ReapWait(s: Sys, e: Step)
    requires Inv(s) && Enabled(s, e) && e.Reap?
    ensures WaitOk(Do(s, e))
  {
    UnfoldRun(s);
    var p, i := Me(s, e.c), At(s, e.c).i;
    assert ProcOk(s, p) && ProcOk(s, i);
    OnCpuOk(s, i);
    Reaped(s, Do(s, e), p, i);
  }

  lemma {:induction false} Reaped(s: Sys, s': Sys, p: nat, i: nat)
    requires WaitOk(s) && Shape(s) && p < NPROC && i < NPROC && i != p && s.procs[p].pc.Scanning?
             && s.procs[i].pc == Gone
    requires s' == s.(procs := s.procs[i := s.procs[i].(st := Unused, chan := None,
                                                        parent := -1)][p := s.procs[p].(pc := User)], wl := -1)
    ensures WaitOk(s')
  {
    var x := s.procs[i].(st := Unused, chan := None, parent := -1);
    QuietStep(s, Put(s, i, x), i, x);
    WlGo(Put(s, i, x), s', p, User);
  }

  /** A child, perhaps a zombie, is given to init, whom the next steps wake. */
  lemma {:induction false} ReparentWait(s: Sys, e: Step)
    requires Inv(s) && Enabled(s, e) && e.Reparent?
    ensures WaitOk(Do(s, e))
  {
    Here(s, e.c);
    var p, i, s' := Me(s, e.c), At(s, e.c).i, Do(s, e);
    There(s, i);
    WlFacts(s, p);
    GivenAway(s, s', p, i);
  }

  lemma {:induction false} GivenAway(s: Sys, s': Sys, p: nat, i: nat)
    requires WaitOk(s) && Shape(s) && Shape(s') && p < NPROC && i < NPROC && i != p && s.wl == p
             && s.procs[p].pc == Reparenting(i)
    requires s' == s.(procs := s.procs[i := s.procs[i].(parent := INIT)][p := s.procs[p].(pc := WakingInit(i, 0))])
    ensures WaitOk(s')
  {
    Unfold(s);
    var t := s.(procs := s.procs[p := s.procs[p].(pc := WakingInit(i, 0))]);
    WlHolders(s, t, p, t.procs[p]);
    WlSleepers(s, t, p, t.procs[p]);
    GivenHolders(t, s', i);
    Unfold(s');
    forall v | 0 <= v < NPROC ensures WaitersOk(s', v) {
      assert v != p ==> !HoldsWait(s.procs[v].pc);
    }
  }

  lemma {:induction false} GivenHolders(t: Sys, s': Sys, i: nat)
    requires Shape(t) && HoldersOk(t) && SleepersOk(t) && i < NPROC && s' == Put(t, i, t.procs[i].(parent := INIT))
    ensures HoldersOk(s') && SleepersOk(s')
  {
    var x := t.procs[i].(parent := INIT);
    forall q | 0 <= q < NPROC ensures SameHolds(t.procs[q].pc, s'.procs[q].pc) {
    }
    SameHolders(t, s');
    GivenSleepers(t, s', i);
  }

  lemma {:induction false} GivenSleepers(t: Sys, s': Sys, i: nat)
    requires Shape(t) && SleepersOk(t) && i < NPROC && s' == Put(t, i, t.procs[i].(parent := INIT))
    ensures SleepersOk(s')
  {
    forall q, l | 0 <= q < NPROC && 0 <= l < NLOCKS && Waits(s'.procs[q], LockChan(l))
      ensures s'.locked[l] || WakeComing(s', l, q)
    {
      assert Waits(t.procs[q], LockChan(l));
    }
  }

  lemma {:induction false} WakeQuiet(s: Sys, q: nat, ch: Chan)
    requires WaitOk(s) && Shape(s) && q < NPROC
    ensures WaitOk(Wake(s, q, ch)) && (ch != None ==> !Waits(Wake(s, q, ch).procs[q], ch))
  {
    if s.procs[q].chan == ch {
      QuietStep(s, Wake(s, q, ch), q, Woken(s.procs[q]));
    }
  }

  /** The next process is woken if it waits for `ch`; the holder of wait_lock goes on. */
  lemma {:induction false} InitWaker(s: Sys, s': Sys, w: nat, i: nat, q: nat)
    requires WaitOk(s) && Shape(s) && w < NPROC && q < NPROC && s.procs[w].pc == WakingInit(i, q)
    requires var t := Wake(s, q, ProcChan(INIT)); s' == Put(t, w, t.procs[w].(pc := WakingInit(i, q + 1)))
    ensures WaitOk(s')
  {
    var t := Wake(s, q, ProcChan(INIT));
    WakeQuiet(s, q, ProcChan(INIT));
    WlFacts(t, w);
    ParentsSame(t, s', w, s'.procs[w]);
    WlStep(t, s', w, s'.procs[w]);
  }

  lemma {:induction false} ParentPassed(t: Sys, s': Sys, w: nat, q: nat)
    requires Shape(t) && w < NPROC && q < NPROC && t.procs[w].pc == WakingParent(q) && WaitersOk(t, w)
    requires t.procs[w].parent == q ==> !Waits(t.procs[q], ProcChan(q))
    requires s' == Put(t, w, t.procs[w].(pc := WakingParent(q + 1)))
    ensures WaitersOk(s', w)
  {
  }

  lemma {:induction false} ParentGoes(t: Sys, s': Sys, w: nat, q: nat)
    requires WaitOk(t) && Shape(t) && w < NPROC && q < NPROC && t.procs[w].pc == WakingParent(q)
    requires t.procs[w].parent == q ==> !Waits(t.procs[q], ProcChan(q))
    requires s' == Put(t, w, t.procs[w].(pc := WakingParent(q + 1)))
    ensures WaitOk(s')
  {
    WlFacts(t, w);
    ParentPassed(t, s', w, q);
    WlGo(t, s', w, WakingParent(q + 1));
  }

  lemma {:induction false} ParentWaker(s: Sys, s': Sys, w: nat, q: nat, ch: Chan)
    requires WaitOk(s) && Shape(s) && w < NPROC && q < NPROC && s.procs[w].pc == WakingParent(q)
    requires s.procs[w].parent >= 0 ==> ch == ProcChan(s.procs[w].parent)
    requires var t := Wake(s, q, ch); s' == Put(t, w, t.procs[w].(pc := WakingParent(q + 1)))
    ensures WaitOk(s')
  {
    WakeQuiet(s, q, ch);
    ParentGoes(Wake(s, q, ch), s', w, q);
  }

  lemma {:induction false} WakeInitWait(s: Sys, e: Step)
    requires Inv(s) && Enabled(s, e) && e.WakeInitNext?
    ensures WaitOk(Do(s, e))
  {
    Here(s, e.c);
    InitWaker(s, Do(s, e), Me(s, e.c), At(s, e.c).i, At(s, e.c).q);
  }

  lemma {:induction false} WakeParentWait(s: Sys, e: Step)
    requires Inv(s) && Enabled(s, e) && e.WakeParentNext?
    ensures WaitOk(Do(s, e))
  {
    Here(s, e.c);
    var p := Me(s, e.c);
    ParentWaker(s, Do(s, e), p, At(s, e.c).q, if s.procs[p].parent >= 0 then ProcChan(s.procs[p].parent) else None);
  }

  /** A process becomes a zombie once its parent does not wait. */
  lemma {:induction false} BeZombieWait(s: Sys, e: Step)
    requires Inv(s) && Enabled(s, e) && e.BeZombie?
    ensures WaitOk(Do(s, e))
  {
    Here(s, e.c);
    var p, s' := Me(s, e.c), Do(s, e);
    WlFacts(s, p);
    ParentAwake(s, s', p, s'.procs[p]);
    WlStep(s, s', p, s'.procs[p]);
  }

  lemma {:induction false} ParentAwake(s: Sys, s': Sys, w: nat, x': Proc)
    requires ParentsOk(s) && Shape(s) && Shape(s') && w < NPROC && s'.procs == s.procs[w := x']
             && s.procs[w].pc == Exiting && WaitersOk(s, w)
    requires s.wl == w == s'.wl && x'.parent == s.procs[w].parent && x'.parent != w && x'.pc == Dying
    ensures ParentsOk(s')
  {
  }

  // sleep locks

  ghost predicate SleepersAt(s: Sys, l: nat)
    requires l < |s.inner| && l < |s.locked|
  {
    forall p :: 0 <= p < |s.procs| && Waits(s.procs[p], LockChan(l)) ==> s.locked[l] || WakeComing(s, l, p)
  }

  /** Process `w`, the only one that can hold the inner lock of `l`, takes it, keeps it or
      gives it up; it holds no other. */
  ghost predicate LockStep(s: Sys, s': Sys, w: nat, x': Proc, l: nat) {
    && Shape(s) && Shape(s') && w < NPROC && l < NLOCKS && s'.wl == s.wl && s'.procs == s.procs[w := x']
    && (NoInner(s.procs[w].pc) || HoldsInner(s.procs[w].pc, l)) && (NoInner(x'.pc) || HoldsInner(x'.pc, l))
    && !HoldsWait(s.procs[w].pc) && !HoldsWait(x'.pc) && x'.st == s.procs[w].st && x'.parent == s.procs[w].parent
    && (s.inner[l] == -1 || s.inner[l] == w) && s'.inner == s.inner[l := if HoldsInner(x'.pc, l) then w else -1]
    && s'.locked == s.locked[l := s'.locked[l]] && (x'.pc.Prepared? ==> s'.locked[l])
    && (forall k :: k != l && Waits(x', LockChan(k)) ==> Waits(s.procs[w], LockChan(k)))
    && (Waits(x', ProcChan(w)) ==> Waits(s.procs[w], ProcChan(w)))
  }

  lemma {:induction false} LockHolders(s: Sys, s': Sys, w: nat, x': Proc, l: nat)
    requires WaitInv(s) && LockStep(s, s', w, x', l)
    ensures HoldersOk(s')
  {
  }

  lemma {:induction false} LockSleepers(s: Sys, s': Sys, w: nat, x': Proc, l: nat)
    requires WaitInv(s) && LockStep(s, s', w, x', l) && SleepersAt(s', l)
    ensures SleepersOk(s')
  {
    forall p, k | 0 <= p < NPROC && 0 <= k < NLOCKS && Waits(s'.procs[p], LockChan(k))
      ensures s'.locked[k] || WakeComing(s', k, p)
    {
      if k != l {
        assert Waits(s.procs[p], LockChan(k));
        assert s.locked[k] || WakeComing(s, k, p);
      }
    }
  }

  lemma {:induction false} LockBody(s: Sys, s': Sys, w: nat, x': Proc, l: nat)
    requires WaitOk(s) && LockStep(s, s', w, x', l) && SleepersAt(s', l)
    ensures WaitOk(s')
  {
    Unfold(s);
    LockHolders(s, s', w, x', l);
    LockSleepers(s, s', w, x', l);
    forall v | 0 <= v < NPROC ensures WaitersOk(s', v) {
      assert WaitersOk(s, v);
    }
    Unfold(s');
  }

  /** What is known at a place where the inner lock of `l` is held. */
  lemma {:induction false} LockFacts(s: Sys, w: nat, l: nat)
    requires WaitOk(s) && Shape(s) && w < NPROC && l < NLOCKS
    ensures (HoldsInner(s.procs[w].pc, l) ==> s.inner[l] == w) && SleepersAt(s, l)
    ensures s.procs[w].pc.Prepared? ==> s.procs[w].pc.l < NLOCKS && s.locked[s.procs[w].pc.l]
    ensures s.inner[l] != -1 ==> 0 <= s.inner[l] < NPROC && HoldsInner(s.procs[s.inner[l]].pc, l)
  {
    Unfold(s);
  }

  lemma {:induction false} TakeInnerWait(s: Sys, e: Step)
    requires Inv(s) && Enabled(s, e) && e.TakeInner?
    ensures WaitOk(Do(s, e))
  {
    Here(s, e.c);
    var p, s', l := Me(s, e.c), Do(s, e), At(s, e.c).l;
    LockFacts(s, p, l);
    LockBody(s, s', p, s'.procs[p], l);
  }

  lemma {:induction false} GetLockWait(s: Sys, e: Step)
    requires Inv(s) && Enabled(s, e) && e.GetLock?
    ensures WaitOk(Do(s, e))
  {
    Here(s, e.c);
    var p, s', l := Me(s, e.c), Do(s, e), At(s, e.c).l;
    LockFacts(s, p, l);
    LockBody(s, s', p, s'.procs[p], l);
  }

  lemma {:induction false} PrepareWaitLock(s: Sys, e: Step)
    requires Inv(s) && Enabled(s, e) && e.Prepare?
    ensures WaitOk(Do(s, e))
  {
    Here(s, e.c);
    var p, s', l := Me(s, e.c), Do(s, e), At(s, e.c).l;
    LockFacts(s, p, l);
    LockBody(s, s', p, s'.procs[p], l);
  }

  lemma {:induction false} DropInnerWait(s: Sys, e: Step)
    requires Inv(s) && Enabled(s, e) && e.DropInner?
    ensures WaitOk(Do(s, e))
  {
    Here(s, e.c);
    var p, s', l := Me(s, e.c), Do(s, e), At(s, e.c).l;
    LockFacts(s, p, l);
    LockBody(s, s', p, s'.procs[p], l);
  }

  lemma {:induction false} BeginReleaseWait(s: Sys, e: Step)
    requires Inv(s) && Enabled(s, e) && e.BeginRelease?
    ensures WaitOk(Do(s, e))
  {
    Here(s, e.c);
    var p, s', l := Me(s, e.c), Do(s, e), At(s, e.c).l;
    LockFacts(s, p, l);
    LockBody(s, s', p, s'.procs[p], l);
  }

  lemma {:induction false} EndReleaseWait(s: Sys, e: Step)
    requires Inv(s) && Enabled(s, e) && e.EndRelease?
    ensures WaitOk(Do(s, e))
  {
    Here(s, e.c);
    var p, s', l := Me(s, e.c), Do(s, e), At(s, e.c).l;
    LockFacts(s, p, l);
    LockBody(s, s', p, s'.procs[p], l);
  }

  /** After the wakeup has come to process `q`, that no longer waits. */
  lemma {:induction false} WakerGoes(s: Sys, s': Sys, p: nat, l: nat, q: nat)
    requires WaitOk(s) && Shape(s) && p < NPROC && l < NLOCKS && q < NPROC && s.procs[p].pc == Waking(l, q)
    requires var t := Wake(s, q, LockChan(l)); s' == Put(t, p, t.procs[p].(pc := Waking(l, q + 1)))
    ensures WaitOk(s')
  {
    var t := Wake(s, q, LockChan(l));
    WakeQuiet(s, q, LockChan(l));
    LockFacts(t, p, l);
    LockBody(t, s', p, s'.procs[p], l);
  }

  lemma {:induction false} WakeNextWait(s: Sys, e: Step)
    requires Inv(s) && Enabled(s, e) && e.WakeNext?
    ensures WaitOk(Do(s, e))
  {
    Here(s, e.c);
    WakerGoes(s, Do(s, e), Me(s, e.c), At(s, e.c).l, At(s, e.c).q);
  }

  lemma {:induction false} DeadOutWait(s: Sys, e: Step)
    requires Inv(s) && Enabled(s, e) && e.DeadOut?
    ensures WaitOk(Do(s, e))
  {
    Here(s, e.c);
    var p := Me(s, e.c);
    QuietStep(s, Do(s, e), p, Do(s, e).procs[p]);
  }

  lemma {:induction false} LocksWait(s: Sys, e: Step)
    requires Inv(s) && Enabled(s, e) && IsLocks(e)
    ensures WaitOk(Do(s, e))
  {
    if e.Move? {
      MoveWait(s, e);
    } else if e.TakeInner? {
      TakeInnerWait(s, e);
    } else if e.GetLock? {
      GetLockWait(s, e);
    } else if e.Prepare? {
      PrepareWaitLock(s, e);
    } else if e.DropInner? {
      DropInnerWait(s, e);
    } else if e.BeginRelease? {
      BeginReleaseWait(s, e);
    } else if e.WakeNext? {
      WakeNextWait(s, e);
    } else if e.EndRelease? {
      EndReleaseWait(s, e);
    } else {
      AnyoneWait(s, e);
    }
  }

  lemma {:induction false} ExitsWait(s: Sys, e: Step)
    requires Inv(s) && Enabled(s, e) && !IsSched(e) && !IsLocks(e)
    ensures WaitOk(Do(s, e))
  {
    if e.TakeWait? || e.TakeExit? {
      TakesWait(s, e);
    } else if e.ScanNext? {
      ScanWait(s, e);
    } else if e.Reap? {
      ReapWait(s, e);
    } else if e.GiveUp? {
      GivesUp(s, e);
    } else if e.DropExit? {
      DropExitWait(s, e);
    } else if e.PrepareWait? {
      PrepareWaitWait(s, e);
    } else if e.DropWait? {
      DropWaitWait(s, e);
    } else if e.Reparent? {
      ReparentWait(s, e);
    } else if e.BeZombie? {
      BeZombieWait(s, e);
    } else if e.DeadOut? {
      DeadOutWait(s, e);
    } else if e.WakeInitNext? {
      WakeInitWait(s, e);
    } else {
      WakeParentWait(s, e);
    }
  }

  /** Every step keeps the invariant. */
  lemma {:induction false} StepInv(s: Sys, e: Step)
    requires Inv(s) && Enabled(s, e)
    ensures Inv(Do(s, e))
  {
    UnfoldRun(s);
    StepRun(s, e);
    UnfoldRun(Do(s, e));
    StepWait(s, e);
  }

  lemma {:induction false} StepWait(s: Sys, e: Step)
    requires Inv(s) && Enabled(s, e)
    ensures WaitOk(Do(s, e))
  {
    if e.Pick? || e.Unpick? || e.Dispatch? || e.BackOut? {
      SchedulerWait(s, e);
    } else if e.Resume? {
      ResumeWait(s, e);
    } else if e.Preempt? || e.YieldOut? {
      SwitchWait(s, e);
    } else if e.Register? || e.Doze? {
      RegisterWait(s, e);
    } else if IsSched(e) {
      SleepWait(s, e);
    } else if IsLocks(e) {
      LocksWait(s, e);
    } else {
      ExitsWait(s, e);
    }
  }

  // ---------------------------------------------------------------- runs

  /** Before anything ran: init is ready, all other slots are free. */
  ghost predicate Start(s: Sys) {
    && Shape(s) && s.wl == -1 && (forall l :: 0 <= l < NLOCKS ==> s.inner[l] == -1 && !s.locked[l])
    && (forall c :: 0 <= c < NCPU ==> s.cpus[c] == Cpu(-1, Idle))
    && (forall p :: 0 <= p < NPROC ==>
          s.procs[p] == if p == INIT then Proc(Runnable, None, -1, -1, -1, Off(User))
          else Proc(Unused, None, -1, -1, -1, Gone))
  }

  lemma {:induction false} StartInv(s: Sys)
    requires Start(s)
    ensures Inv(s)
  {
    Unfold(s);
    UnfoldRun(s);
  }

  /** The states of a run, one step after another. */
  ghost predicate Path(states: seq<Sys>, steps: seq<Step>) {
    && |states| == |steps| + 1 && Start(states[0])
    && forall k :: 0 <= k < |steps| ==> Enabled(states[k], steps[k]) && states[k + 1] == Do(states[k], steps[k])
  }

  lemma {:induction false} RunsKeepInv(states: seq<Sys>, steps: seq<Step>, k: nat)
    requires Path(states, steps) && k < |states|
    ensures Inv(states[k])
  {
    if k == 0 {
      StartInv(states[0]);
    } else {
      RunsKeepInv(states, steps, k - 1);
      StepInv(states[k - 1], steps[k - 1]);
    }
  }

  /** No lost wakeups, sleep locks: whenever the inner lock is free, whoever sleeps on a sleep
      lock sleeps on one that is locked. */
  lemma {:induction false} NoSleepOnFreeLock(states: seq<Sys>, steps: seq<Step>, k: nat, p: nat, l: nat)
    requires Path(states, steps) && k < |states| && p < NPROC && l < NLOCKS
    requires |states[k].procs| == NPROC && |states[k].inner| == |states[k].locked| == NLOCKS
    requires states[k].inner[l] == -1 && states[k].procs[p].st == Sleeping && states[k].procs[p].chan == LockChan(l)
    ensures states[k].locked[l]
  {
    RunsKeepInv(states, steps, k);
    UnfoldRun(states[k]);
    assert ProcOk(states[k], p);
    LockFacts(states[k], p, l);
    assert Waits(states[k].procs[p], LockChan(l));
  }

  /** No lost wakeups, wait: whenever wait_lock is free, no process sleeps in wait while it has
      a zombie child. */
  lemma {:induction false} NoSleepWithZombieChild(states: seq<Sys>, steps: seq<Step>, k: nat, p: nat, j: nat)
    requires Path(states, steps) && k < |states| && p < NPROC && j < NPROC
    requires |states[k].procs| == NPROC && states[k].wl == -1
    requires states[k].procs[p].st == Sleeping && states[k].procs[p].chan == ProcChan(p)
             && states[k].procs[j].parent == p
    ensures states[k].procs[j].st != Zombie
  {
    RunsKeepInv(states, steps, k);
    UnfoldRun(states[k]);
    assert ProcOk(states[k], p);
    WlFacts(states[k], p);
    assert Waits(states[k].procs[p], ProcChan(p));
  }

  /** In every run, a process whose lock is free runs exactly when it is one CPU's current
      process. */
  lemma {:induction false} RunsExecuteSingly(states: seq<Sys>, steps: seq<Step>, k: nat, p: nat)
    requires Path(states, steps) && k < |states| && p < NPROC && |states[k].procs| == NPROC && |states[k].cpus| == NCPU
    requires states[k].procs[p].lock == -1
    ensures states[k].procs[p].st == Running <==> exists c :: 0 <= c < NCPU && states[k].cpus[c].cur == p
    ensures forall c, d ::
              0 <= c < NCPU && 0 <= d < NCPU && states[k].cpus[c].cur == p && states[k].cpus[d].cur == p ==> c == d
  {
    RunsKeepInv(states, steps, k);
    UnfoldRun(states[k]);
    SingleExecution(states[k], p);
  }

  /** A process that a wakeup has reached and that has not registered again does not sleep. */
  ghost predicate Awake(s: Sys, p: nat) {
    p < |s.procs| && s.procs[p].chan == None && s.procs[p].st != Sleeping
  }

  /** The process registers on a channel. */
  ghost predicate Registers(s: Sys, e: Step, p: nat) {
    (e.Register? || e.Prepare? || e.PrepareWait?) && Runs(s, e.c) && Me(s, e.c) == p
  }

  lemma {:induction false} StaysAwakeSched(s: Sys, e: Step, p: nat)
    requires Enabled(s, e) && IsSched(e) && Awake(s, p) && !Registers(s, e, p)
    ensures Awake(Do(s, e), p)
  {
  }

  lemma {:induction false} StaysAwakeOthers(s: Sys, e: Step, p: nat)
    requires Enabled(s, e) && IsOthers(e) && Awake(s, p) && !Registers(s, e, p)
    ensures Awake(Do(s, e), p)
  {
  }

  lemma {:induction false} StaysAwakeLocks(s: Sys, e: Step, p: nat)
    requires Enabled(s, e) && IsLocks(e) && !IsOthers(e) && Awake(s, p) && !Registers(s, e, p)
    ensures Awake(Do(s, e), p)
  {
  }

  lemma {:induction false} StaysAwakeExit(s: Sys, e: Step, p: nat)
    requires Enabled(s, e) && !IsSched(e) && !IsLocks(e) && Awake(s, p) && !Registers(s, e, p)
    ensures Awake(Do(s, e), p)
  {
  }

  lemma {:induction false} StaysAwake(s: Sys, e: Step, p: nat)
    requires Enabled(s, e) && Awake(s, p) && !Registers(s, e, p)
    ensures Awake(Do(s, e), p)
  {
    if IsSched(e) {
      StaysAwakeSched(s, e, p);
    } else if IsOthers(e) {
      StaysAwakeOthers(s, e, p);
    } else if IsLocks(e) {
      StaysAwakeLocks(s, e, p);
    } else {
      StaysAwakeExit(s, e, p);
    }
  }

  /** The process registers on channel `ch`. */
  ghost predicate RegistersOn(s: Sys, e: Step, p: nat, ch: Chan) {
    && Registers(s, e, p) && Enabled(s, e)
    && ch == if e.Register? then Other else if e.Prepare? then LockChan(At(s, e.c).l) else ProcChan(p)
  }

  /** A wakeup on channel `ch` comes to process `p`. */
  ghost predicate WakesOn(s: Sys, e: Step, p: nat, ch: Chan) {
    match e
    case WakeUp(q) => q == p
    case WakeNext(c) => Runs(s, c) && At(s, c).Waking? && At(s, c).q == p && ch == LockChan(At(s, c).l)
    case WakeInitNext(c) => Runs(s, c) && At(s, c).WakingInit? && At(s, c).q == p && ch == ProcChan(INIT)
    case WakeParentNext(c) =>
      Runs(s, c) && At(s, c).WakingParent? && At(s, c).q == p && s.procs[Me(s, c)].parent >= 0
      && ch == ProcChan(s.procs[Me(s, c)].parent)
    case _ => false
  }

  ghost predicate On(s: Sys, p: nat, ch: Chan) {
    p < |s.procs| && (s.procs[p].chan == ch || s.procs[p].chan == None)
  }

  lemma {:induction false} RegisteredOn(s: Sys, e: Step, p: nat, ch: Chan)
    requires RegistersOn(s, e, p, ch)
    ensures On(Do(s, e), p, ch)
  {
  }

  lemma {:induction false} StaysOnSched(s: Sys, e: Step, p: nat, ch: Chan)
    requires Enabled(s, e) && IsSched(e) && On(s, p, ch) && !Registers(s, e, p)
    ensures On(Do(s, e), p, ch)
  {
  }

  lemma {:induction false} StaysOnLocks(s: Sys, e: Step, p: nat, ch: Chan)
    requires Enabled(s, e) && IsLocks(e) && On(s, p, ch) && !Registers(s, e, p)
    ensures On(Do(s, e), p, ch)
  {
  }

  lemma {:induction false} StaysOnExit(s: Sys, e: Step, p: nat, ch: Chan)
    requires Enabled(s, e) && !IsSched(e) && !IsLocks(e) && On(s, p, ch) && !Registers(s, e, p)
    ensures On(Do(s, e), p, ch)
  {
  }

  /** Until it registers again, a process is on its channel or a wakeup has taken it off. */
  lemma {:induction false} StaysOn(states: seq<Sys>, steps: seq<Step>, j: nat, k: nat, p: nat, ch: Chan)
    requires Path(states, steps) && j < k < |states| && p < NPROC && RegistersOn(states[j], steps[j], p, ch)
    requires forall i :: j < i < k ==> !Registers(states[i], steps[i], p)
    ensures On(states[k], p, ch)
    decreases k
  {
    if k == j + 1 {
      RegisteredOn(states[j], steps[j], p, ch);
    } else {
      StaysOn(states, steps, j, k - 1, p, ch);
      var s, e := states[k - 1], steps[k - 1];
      if IsSched(e) {
        StaysOnSched(s, e, p, ch);
      } else if IsLocks(e) {
        StaysOnLocks(s, e, p, ch);
      } else {
        StaysOnExit(s, e, p, ch);
      }
    }
  }

  /** A wakeup on the channel of a process leaves it awake. */
  lemma {:induction false} WakesUp(s: Sys, e: Step, p: nat, ch: Chan)
    requires RunInv(s) && Enabled(s, e) && p < NPROC && WakesOn(s, e, p, ch) && On(s, p, ch)
    ensures Awake(Do(s, e), p)
  {
    assert ProcOk(s, p);
  }

  lemma {:induction false} AwakeUntil(states: seq<Sys>, steps: seq<Step>, k: nat, n: nat, p: nat)
    requires Path(states, steps) && k <= n < |states| && p < NPROC && Awake(states[k], p)
    requires forall i :: k <= i < n ==> !Registers(states[i], steps[i], p)
    ensures Awake(states[n], p)
    decreases n
  {
    if k < n {
      AwakeUntil(states, steps, k, n - 1, p);
      StaysAwake(states[n - 1], steps[n - 1], p);
    }
  }

  /** No wakeup is lost between sleep_prepare and sleep. Process `p` registers on `ch` at step
      `j`, and a wakeup on `ch` comes to it at a later step `k`, wherever `p` is by then, asleep
      or not yet. Unless it registers again, it does not sleep at any later time `n`. */
  lemma {:induction false} WakeupIsNotLost(states: seq<Sys>, steps: seq<Step>, j: nat, k: nat, n: nat, p: nat, ch: Chan)
    requires Path(states, steps) && j < k < n < |states| && p < NPROC
    requires RegistersOn(states[j], steps[j], p, ch) && WakesOn(states[k], steps[k], p, ch)
    requires forall i :: j < i < n ==> !Registers(states[i], steps[i], p)
    ensures p < |states[n].procs| && states[n].procs[p].st != Sleeping
  {
    StaysOn(states, steps, j, k, p, ch);
    RunsKeepInv(states, steps, k);
    UnfoldRun(states[k]);
    WakesUp(states[k], steps[k], p, ch);
    AwakeUntil(states, steps, k + 1, n, p);
  }

  /** In every run, the lock taken before a switch is released on the same CPU after it. */
  lemma {:induction false} RunsKeepLockOnCpu(states: seq<Sys>, steps: seq<Step>, k: nat)
    requires Path(states, steps) && k < |steps|
    requires var e := steps[k]; e.Dispatch? || e.BackOut? || e.YieldOut? || e.SleepOut? || e.DeadOut? || e.Resume?
    ensures |states[k].procs| == |states[k + 1].procs| == NPROC && 0 <= Switched(states[k], steps[k]) < NPROC
    ensures states[k].procs[Switched(states[k], steps[k])].lock == steps[k].c
    ensures states[k + 1].procs[Switched(states[k], steps[k])].lock == if steps[k].Resume? || steps[k].BackOut? then -1
            else steps[k].c
  {
    RunsKeepInv(states, steps, k);
    UnfoldRun(states[k]);
    LockAcrossSwitch(states[k], steps[k]);
  }
}
