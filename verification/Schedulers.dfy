/** The three scheduling policies (kernel/sched_rr.c, kernel/sched_priority.c,
    kernel/sched_mlfq.c, kernel/sched.c, and the timer path of kernel/trap.c) on any number of
    CPUs, as events on the process table. `Do` says what each event does; `Kernel` has the code.

    A scheduler holds one process lock at a time while it scans the table, so each turn of its
    loop is an event of its own, and anything may happen between two of them. */
module Schedulers {
  import opened Params
  import opened ProcStates

  const NCPU: Pos
  const LEVELS: nat := 3
  const AGING: nat := 8

  datatype Policy = Rr | Priority | Mlfq

  /** The scheduling fields of struct proc. */
  datatype Proc = Proc(state: State, priority: int, level: int, slice: int, since: nat)

  /** The scan of a CPU's scheduler: how many slots it has looked at, the best of them so far,
      or -1, and its priority or level when seen. */
  datatype Scan = Off | On(d: nat, best: int, key: int)

  /** The process table, the cursor and the scan of each CPU, the clock, and, for each process,
      the ticks it has run since its time slice was last refilled. */
  datatype Sched = Sched(procs: seq<Proc>, cursors: seq<nat>, scans: seq<Scan>, ticks: nat, used: seq<nat>)

  // ---------------------------------------------------------------- rotation

  /** (c + d) % NPROC. */
  function Slot(c: nat, d: nat): (s: nat)
    requires c < NPROC && d < NPROC
    ensures s < NPROC
  {
    if c + d < NPROC then c + d else c + d - NPROC
  }

  lemma SlotIsMod(c: nat, d: nat)
    requires c < NPROC && d < NPROC
    ensures Slot(c, d) == (c + d) % NPROC
  {
  }

  /** How far slot `p` is behind the cursor. */
  function Behind(c: nat, p: nat): (d: nat)
    requires c < NPROC && p < NPROC
    ensures d < NPROC && Slot(c, d) == p
  {
    if p >= c then p - c else p + NPROC - c
  }

  /** The cursor after slot `q` was chosen: (q + 1) % NPROC. */
  function Next(q: nat): (c: nat)
    requires q < NPROC
    ensures c < NPROC
  {
    if q + 1 < NPROC then q + 1 else 0
  }

  /** Choosing a slot nearer than `p` brings `p` nearer. */
  lemma Nearer(c: nat, p: nat, q: nat)
    requires c < NPROC && p < NPROC && q < NPROC && Behind(c, q) < Behind(c, p)
    ensures Behind(Next(q), p) < Behind(c, p)
  {
  }

  /** Slot `q` is the first, in cyclic order from the cursor, of those that `ok` accepts. */
  ghost predicate FirstFrom(c: nat, ok: seq<bool>, q: nat) {
    && c < NPROC && |ok| == NPROC && q < NPROC && ok[q]
    && forall p :: 0 <= p < NPROC && ok[p] ==> Behind(c, q) <= Behind(c, p)
  }

  /** The first acceptable slot at distance `d` or more from the cursor, or -1. */
  function Pick(c: nat, ok: seq<bool>, d: nat): (q: int)
    requires c < NPROC && |ok| == NPROC && d <= NPROC
    ensures -1 <= q < NPROC
    decreases NPROC - d
  {
    if d == NPROC then -1 else if ok[Slot(c, d)] then Slot(c, d) else Pick(c, ok, d + 1)
  }

  /** Passing over slots that are not acceptable changes nothing. */
  lemma {:induction false} PickSkips(c: nat, ok: seq<bool>, d: nat)
    requires c < NPROC && |ok| == NPROC && d <= NPROC && forall e :: 0 <= e < d ==> !ok[Slot(c, e)]
    ensures Pick(c, ok, 0) == Pick(c, ok, d)
  {
    if d > 0 {
      PickSkips(c, ok, d - 1);
    }
  }

  /** `Pick` is the first acceptable slot in cyclic order, and finds one if there is one. */
  lemma {:induction false} PickIsFirst(c: nat, ok: seq<bool>, d: nat)
    requires c < NPROC && |ok| == NPROC && d <= NPROC && forall e :: 0 <= e < d ==> !ok[Slot(c, e)]
    ensures var q := Pick(c, ok, d); if q == -1 then forall p :: 0 <= p < NPROC ==> !ok[p] else FirstFrom(c, ok, q)
    decreases NPROC - d
  {
    if d == NPROC {
      forall p | 0 <= p < NPROC ensures !ok[p] {
        assert Slot(c, Behind(c, p)) == p;
      }
    } else if ok[Slot(c, d)] {
      forall p | 0 <= p < NPROC && ok[p] ensures Behind(c, Slot(c, d)) <= Behind(c, p) {
        assert Slot(c, Behind(c, p)) == p;
      }
    } else {
      PickIsFirst(c, ok, d + 1);
    }
  }

  // ---------------------------------------------------------------- what each policy accepts

  function Ready(procs: seq<Proc>): (ok: seq<bool>)
    requires |procs| == NPROC
    ensures |ok| == NPROC && forall i :: 0 <= i < NPROC ==> ok[i] == (procs[i].state == Runnable)
  {
    seq(NPROC, i requires 0 <= i < NPROC => procs[i].state == Runnable)
  }

  /** The runnable processes of maximal priority. */
  ghost function Topmost(procs: seq<Proc>): (ok: seq<bool>)
    requires |procs| == NPROC
    ensures |ok| == NPROC && forall i :: 0 <= i < NPROC ==> ok[i] == IsTop(procs, i)
  {
    seq(NPROC, i requires 0 <= i < NPROC => IsTop(procs, i))
  }

  ghost predicate IsTop(procs: seq<Proc>, i: nat)
    requires i < |procs|
  {
    procs[i].state == Runnable && forall j :: 0 <= j < |procs| && procs[j].state == Runnable ==>
      procs[j].priority <= procs[i].priority
  }

  /** The runnable processes on the lowest-numbered queue level in use. */
  ghost function Foremost(procs: seq<Proc>): (ok: seq<bool>)
    requires |procs| == NPROC
    ensures |ok| == NPROC && forall i :: 0 <= i < NPROC ==> ok[i] == IsFore(procs, i)
  {
    seq(NPROC, i requires 0 <= i < NPROC => IsFore(procs, i))
  }

  ghost predicate IsFore(procs: seq<Proc>, i: nat)
    requires i < |procs|
  {
    procs[i].state == Runnable && forall j :: 0 <= j < |procs| && procs[j].state == Runnable ==>
      procs[i].level <= procs[j].level
  }

  /** mlfq_time_slice. */
  function TimeSlice(level: int): int { if level == 0 then 1 else if level == 1 then 2 else 4 }

  /** mlfq_age_locked at tick `t`. */
  function Age(p: Proc, t: nat): Proc {
    if p.state == Runnable && t >= p.since + AGING && p.level > 0
    then p.(level := p.level - 1, slice := TimeSlice(p.level - 1), since := t)
    else p
  }

  function Aged(procs: seq<Proc>, t: nat): (r: seq<Proc>)
    ensures |r| == |procs| && forall i :: 0 <= i < |r| ==> r[i] == Age(procs[i], t)
  {
    seq(|procs|, i requires 0 <= i < |procs| => Age(procs[i], t))
  }

  /** mlfq_level. */
  function Clamp(level: int): int { if level < 0 then 0 else if level >= LEVELS then LEVELS - 1 else level }

  // ---------------------------------------------------------------- events

  datatype Event =
    | StartEvent(i: nat)                              // a new process is made runnable
    | TickEvent(i: nat, clock: bool, sees: bool)      // a timer interrupt while process i runs
    | ClockEvent                                      // a timer interrupt on an idle CPU 0
    | SleepEvent(i: nat)
    | WakeupEvent(i: nat)
    | BeginEvent(c: nat)                              // CPU c begins a scan
    | LookEvent(c: nat)                               // CPU c looks at the next slot
    | ChooseEvent(c: nat)                             // CPU c, at the end of a scan, takes the best
    | PriorityEvent(i: nat, priority: int)
    | ExitEvent(i: nat)
    | ReapEvent(i: nat)

  predicate ScanShape(x: Scan) { x.On? ==> x.d <= NPROC && -1 <= x.best < NPROC }

  predicate Shape(s: Sched) {
    && |s.procs| == |s.used| == NPROC && |s.cursors| == |s.scans| == NCPU
    && (forall c :: 0 <= c < NCPU ==> s.cursors[c] < NPROC)
    && (forall c :: 0 <= c < NCPU ==> ScanShape(s.scans[c]))
  }

  predicate In(s: Sched, i: nat, state: State) { i < |s.procs| && s.procs[i].state == state }

  predicate Enabled(policy: Policy, s: Sched, e: Event) {
    match e
    case StartEvent(i) => In(s, i, Unused)
    case TickEvent(i, _, _) => In(s, i, Running)
    case ClockEvent => true
    case SleepEvent(i) => In(s, i, Running)
    case WakeupEvent(i) => In(s, i, Sleeping)
    case BeginEvent(c) => c < |s.scans| && s.scans[c].Off?
    case LookEvent(c) => c < |s.scans| && s.scans[c].On? && s.scans[c].d < NPROC
    case ChooseEvent(c) => c < |s.scans| && s.scans[c].On? && s.scans[c].d == NPROC
    case PriorityEvent(i, _) => i < |s.procs| && s.procs[i].state != Unused
    case ExitEvent(i) => In(s, i, Running)
    case ReapEvent(i) => In(s, i, Zombie)
  }

  /** Process `i` changes; `used` is what it has used of its slice. */
  function Put(s: Sched, i: nat, p: Proc, used: nat): Sched
    requires i < |s.procs| && i < |s.used|
  {
    s.(procs := s.procs[i := p], used := s.used[i := used])
  }

  /** Who is lifted by aging starts a new slice. */
  function Refill(p: Proc, used: nat, t: nat): nat { if Age(p, t) == p then used else 0 }

  /** Slot `i` as the scan finds it, aged under MLFQ. */
  function Aging(policy: Policy, s: Sched, i: nat): (t: Sched)
    requires Shape(s) && i < NPROC
    ensures Shape(t) && t.cursors == s.cursors && t.scans == s.scans && t.ticks == s.ticks
  {
    if policy == Mlfq then Put(s, i, Age(s.procs[i], s.ticks), Refill(s.procs[i], s.used[i], s.ticks)) else s
  }

  /** CPU `c` runs the process in slot `q`. */
  function Ran(s: Sched, q: nat, c: nat): Sched
    requires Shape(s) && q < NPROC && c < NCPU
  {
    Put(s, q, s.procs[q].(state := Running), s.used[q])
    .(cursors := s.cursors[c := Next(q)], scans := s.scans[c := Off])
  }

  const FIRST: Scan := On(0, -1, LEVELS)

  /** Does the process become the candidate of scan `x`? */
  predicate Better(policy: Policy, x: Scan, p: Proc)
    requires x.On?
  {
    && p.state == Runnable
    && match policy {
         case Rr => false
         case Priority => x.best == -1 || p.priority > x.key
         case Mlfq => p.level < x.key
       }
  }

  function Key(policy: Policy, p: Proc): int { if policy == Mlfq then p.level else p.priority }

  /** Where the scan of CPU `c` is. */
  function Here(s: Sched, c: nat): (q: nat)
    requires Shape(s) && c < NCPU && s.scans[c].On? && s.scans[c].d < NPROC
    ensures q < NPROC
  {
    Slot(s.cursors[c], s.scans[c].d)
  }

  /** One turn of the scanning loop. Round robin takes the first runnable process it meets. */
  function Looked(policy: Policy, s: Sched, c: nat): Sched
    requires Shape(s) && c < NCPU && s.scans[c].On? && s.scans[c].d < NPROC
  {
    var x, q, t := s.scans[c], Here(s, c), Aging(policy, s, Here(s, c));
    if policy == Rr && t.procs[q].state == Runnable then Ran(t, q, c)
    else if Better(policy, x, t.procs[q]) then t.(scans := t.scans[c := On(x.d + 1, q, Key(policy, t.procs[q]))])
    else t.(scans := t.scans[c := x.(d := x.d + 1)])
  }

  /** Is the candidate, locked again, still good? */
  predicate StillGood(policy: Policy, s: Sched, c: nat)
    requires Shape(s) && c < NCPU && s.scans[c].On? && s.scans[c].best >= 0
  {
    var x := s.scans[c];
    var p := Aging(policy, s, x.best).procs[x.best];
    p.state == Runnable && (policy == Mlfq ==> p.level <= x.key)
  }

  /** The end of a scan: no candidate, the candidate runs, or another scan. */
  function Chosen(policy: Policy, s: Sched, c: nat): Sched
    requires Shape(s) && c < NCPU && s.scans[c].On?
  {
    var best := s.scans[c].best;
    if best < 0 then s.(scans := s.scans[c := Off])
    else if StillGood(policy, s, c) then Ran(Aging(policy, s, best), best, c)
    else Aging(policy, s, best).(scans := s.scans[c := FIRST])
  }

  /** The yield hooks, on a process just made runnable. */
  function Yielded(policy: Policy, p: Proc, used: nat, t: nat): (Proc, nat) {
    var r := p.(state := Runnable, since := t);
    if policy != Mlfq then (r.(slice := 1), used)
    else if p.slice > 0 then (r.(level := Clamp(p.level)), used)
    else
      var level := if Clamp(p.level) < LEVELS - 1 then Clamp(p.level) + 1 else Clamp(p.level);
      (r.(level := level, slice := TimeSlice(level)), 0)
  }

  /** The wakeup hooks. */
  function Woken(policy: Policy, p: Proc, used: nat, t: nat): (Proc, nat) {
    var r := p.(state := Runnable, since := t);
    if policy != Mlfq then (r, used)
    else
      var level := if Clamp(p.level) > 0 then Clamp(p.level) - 1 else 0;
      (r.(level := level, slice := TimeSlice(level)), 0)
  }

  /** update_proc_after_tick. */
  function Ticked(p: Proc): Proc { if p.slice > 0 then p.(slice := p.slice - 1) else p }

  /** Whether the process must give up the CPU; `sees` is what mlfq_should_preempt's search for
      a runnable process on a better level came to. */
  predicate Preempted(policy: Policy, p: Proc, sees: bool) { policy != Mlfq || p.slice <= 0 || sees }

  ghost function Do(policy: Policy, s: Sched, e: Event): (s': Sched)
    requires Shape(s) && Enabled(policy, s, e)
    ensures Shape(s')
  {
    match e
    case StartEvent(i) => Put(s, i, Proc(Runnable, 0, 0, 1, s.ticks), 0)
    case TickEvent(i, clock, sees) =>
      var t := if clock then s.(ticks := s.ticks + 1) else s;
      var p := Ticked(s.procs[i]);
      if Preempted(policy, p, sees) then
        var (q, used) := Yielded(policy, p, s.used[i] + 1, t.ticks);
        Put(t, i, q, used)
      else Put(t, i, p, s.used[i] + 1)
    case ClockEvent => s.(ticks := s.ticks + 1)
    case SleepEvent(i) => Put(s, i, s.procs[i].(state := Sleeping), s.used[i])
    case WakeupEvent(i) =>
      var (q, used) := Woken(policy, s.procs[i], s.used[i], s.ticks);
      Put(s, i, q, used)
    case BeginEvent(c) => s.(scans := s.scans[c := FIRST])
    case LookEvent(c) => Looked(policy, s, c)
    case ChooseEvent(c) => Chosen(policy, s, c)
    case PriorityEvent(i, priority) => Put(s, i, s.procs[i].(priority := priority), s.used[i])
    case ExitEvent(i) => Put(s, i, s.procs[i].(state := Zombie), s.used[i])
    case ReapEvent(i) => Put(s, i, Proc(Unused, 0, 0, 0, 0), 0)
  }

  /** A run under one policy. */
  ghost predicate Path(policy: Policy, states: seq<Sched>, events: seq<Event>) {
    && |states| == |events| + 1 && Start(states[0])
    && forall k :: 0 <= k < |events| ==> StepAt(policy, states, events, k)
  }

  ghost predicate StepAt(policy: Policy, states: seq<Sched>, events: seq<Event>, k: nat)
    requires k < |events| && |states| == |events| + 1
  {
    Shape(states[k]) && Enabled(policy, states[k], events[k]) && states[k + 1] == Do(policy, states[k], events[k])
  }

  ghost predicate Start(s: Sched) {
    && Shape(s) && (forall i :: 0 <= i < NPROC ==> s.procs[i].state == Unused)
    && (forall c :: 0 <= c < NCPU ==> s.scans[c].Off?)
  }

  lemma {:induction false} Shapes(policy: Policy, states: seq<Sched>, events: seq<Event>, k: nat)
    requires Path(policy, states, events) && k < |states|
    ensures Shape(states[k])
  {
    if k > 0 {
      assert StepAt(policy, states, events, k - 1);
    }
  }

  // ---------------------------------------------------------------- fairness

  /** CPU `c` runs a process in this step. */
  ghost predicate Dispatches(policy: Policy, s: Sched, e: Event, c: nat) {
    && Shape(s) && Enabled(policy, s, e) && c < NCPU
    && match e {
         case LookEvent(d) => d == c && policy == Rr && s.procs[Here(s, c)].state == Runnable
         case ChooseEvent(d) => d == c && s.scans[c].best >= 0 && StillGood(policy, s, c)
         case _ => false
       }
  }

  /** How many processes CPU `c` runs between two states of a run. */
  ghost function Passes(policy: Policy, states: seq<Sched>, events: seq<Event>, c: nat, i: nat, j: nat): nat
    requires |states| == |events| + 1 && i <= j < |states|
    decreases j
  {
    if j == i then 0
    else
      Passes(policy, states, events, c, i, j - 1)
      + if Dispatches(policy, states[j - 1], events[j - 1], c) then 1 else 0
  }

  /** No runnable process comes before `p` under the policy. */
  ghost predicate Leads(policy: Policy, s: Sched, p: nat) {
    && Shape(s) && p < NPROC && s.procs[p].state == Runnable
    && (policy == Priority ==> IsTop(s.procs, p))
    && (policy == Mlfq ==> SlicesOk(s) && s.procs[p].level == 0)
  }

  /** The scan of CPU `c` has not gone past `p` without a candidate at least as good, and the
      candidate is `p` or nearer. */
  ghost predicate Fair(policy: Policy, s: Sched, c: nat, p: nat)
    requires Shape(s) && c < NCPU && p < NPROC
  {
    var x, far := s.scans[c], Behind(s.cursors[c], p);
    x.On? ==>
      && (policy == Rr ==> x.best == -1) && (x.best == -1 ==> x.d <= far && x.key == LEVELS)
      && (x.best >= 0 ==> Behind(s.cursors[c], x.best) <= far)
      && (x.best >= 0 && x.d > far ==> Matches(policy, x.key, s.procs[p]))
  }

  predicate Matches(policy: Policy, key: int, p: Proc) {
    match policy
    case Rr => true
    case Priority => key >= p.priority
    case Mlfq => key <= p.level
  }

  lemma Apart(c: nat, p: nat, q: nat)
    requires c < NPROC && p < NPROC && q < NPROC && p != q
    ensures Behind(c, p) != Behind(c, q)
  {
  }

  lemma SlotBehind(c: nat, d: nat)
    requires c < NPROC && d < NPROC
    ensures Behind(c, Slot(c, d)) == d
  {
  }

  /** A turn of the loop past a leading process that is not taken. */
  lemma {:induction false} LookFair(policy: Policy, s: Sched, c: nat, p: nat)
    requires Leads(policy, s, p) && c < NCPU && s.scans[c].On? && s.scans[c].d < NPROC && Fair(policy, s, c, p)
    requires Looked(policy, s, c).procs[p].state == Runnable
    requires policy == Priority ==> Looked(policy, s, c).procs[p].priority == s.procs[p].priority
    ensures var s' := Looked(policy, s, c); Shape(s') && Fair(policy, s', c, p)
    ensures Dispatches(policy, s, LookEvent(c), c) ==>
              Behind(Looked(policy, s, c).cursors[c], p) < Behind(s.cursors[c], p)
    ensures !Dispatches(policy, s, LookEvent(c), c) ==> Looked(policy, s, c).cursors == s.cursors
  {
    var q := Here(s, c);
    SlotBehind(s.cursors[c], s.scans[c].d);
    if q != p {
      Apart(s.cursors[c], p, q);
      assert policy == Mlfq ==> SliceOk(s.procs[q], s.used[q], s.ticks);
      if s.scans[c].d < Behind(s.cursors[c], p) {
        Nearer(s.cursors[c], p, q);
      }
    }
  }

  lemma {:induction false} ChooseFair(policy: Policy, s: Sched, c: nat, p: nat)
    requires Leads(policy, s, p) && c < NCPU && s.scans[c].On? && s.scans[c].d == NPROC && Fair(policy, s, c, p)
    requires Chosen(policy, s, c).procs[p].state == Runnable
    ensures var s' := Chosen(policy, s, c); Shape(s') && Fair(policy, s', c, p)
    ensures Dispatches(policy, s, ChooseEvent(c), c) ==>
              Behind(Chosen(policy, s, c).cursors[c], p) < Behind(s.cursors[c], p)
    ensures !Dispatches(policy, s, ChooseEvent(c), c) ==> Chosen(policy, s, c).cursors == s.cursors
  {
    var best := s.scans[c].best;
    if best >= 0 && best != p {
      Apart(s.cursors[c], p, best);
      Nearer(s.cursors[c], p, best);
    }
  }

  /** What others do leaves the scan of CPU `c` alone. */
  lemma {:induction false} OtherFair(policy: Policy, s: Sched, e: Event, c: nat)
    requires Shape(s) && Enabled(policy, s, e) && c < NCPU
    requires e != BeginEvent(c) && e != LookEvent(c) && e != ChooseEvent(c)
    ensures Do(policy, s, e).cursors[c] == s.cursors[c] && Do(policy, s, e).scans[c] == s.scans[c]
    ensures !Dispatches(policy, s, e, c)
  {
  }

  /** One step: a leading process that is passed over comes nearer. */
  lemma {:induction false} FairStep(policy: Policy, s: Sched, e: Event, c: nat, p: nat)
    requires Leads(policy, s, p) && Enabled(policy, s, e) && c < NCPU && Leads(policy, Do(policy, s, e), p)
    requires Fair(policy, s, c, p) && (policy == Priority ==> Do(policy, s, e).procs[p].priority == s.procs[p].priority)
    ensures var s' := Do(policy, s, e);
            && Fair(policy, s', c, p)
            && Behind(s'.cursors[c], p) + (if Dispatches(policy, s, e, c) then 1 else 0) <= Behind(s.cursors[c], p)
  {
    if e == LookEvent(c) {
      LookFair(policy, s, c, p);
    } else if e == ChooseEvent(c) {
      ChooseFair(policy, s, c, p);
    } else if e != BeginEvent(c) {
      OtherFair(policy, s, e, c);
    }
  }

  lemma {:induction false} AfterDispatch(policy: Policy, s: Sched, e: Event, c: nat, p: nat)
    requires p < NPROC && Dispatches(policy, s, e, c)
    ensures Fair(policy, Do(policy, s, e), c, p)
  {
  }

  /** Process `p` leads, under static priority with the same one, in every state from `i` to `j`. */
  ghost predicate LeadsThrough(policy: Policy, states: seq<Sched>, p: nat, i: nat, j: nat) {
    && p < NPROC && i <= j < |states| && (forall k :: i <= k <= j ==> Leads(policy, states[k], p))
    && (policy == Priority ==> SamePriority(states, p, i, j))
  }

  ghost predicate SamePriority(states: seq<Sched>, p: nat, i: nat, j: nat) {
    && i <= j < |states| && p < |states[i].procs|
    && forall k :: i <= k <= j ==>
         p < |states[k].procs| && states[k].procs[p].priority == states[i].procs[p].priority
  }

  /** A scan that was under way at the start may have missed `p`; after that every process that
      CPU `c` runs brings the cursor nearer. */
  ghost predicate Rotates(policy: Policy, states: seq<Sched>, events: seq<Event>, c: nat, p: nat, i: nat, j: nat)
    requires |states| == |events| + 1 && i <= j < |states| && c < NCPU && p < NPROC
    requires Shape(states[i]) && Shape(states[j])
  {
    var n := Passes(policy, states, events, c, i, j);
    if states[i].scans[c].Off? then Fair(policy, states[j], c, p) && n + Behind(states[j].cursors[c], p) <= NPROC - 1
    else n == 0 || (Fair(policy, states[j], c, p) && n + Behind(states[j].cursors[c], p) <= NPROC)
  }

  lemma {:induction false} Rotation(
    policy: Policy, states: seq<Sched>, events: seq<Event>, c: nat, p: nat, i: nat, j: nat)
    requires Path(policy, states, events) && c < NCPU && LeadsThrough(policy, states, p, i, j)
    ensures Rotates(policy, states, events, c, p, i, j)
    decreases j
  {
    if i < j {
      Rotation(policy, states, events, c, p, i, j - 1);
      var s, e := states[j - 1], events[j - 1];
      assert StepAt(policy, states, events, j - 1);
      if Fair(policy, s, c, p) {
        FairStep(policy, s, e, c, p);
      }
      if Dispatches(policy, s, e, c) {
        AfterDispatch(policy, s, e, c, p);
      }
    }
  }

  /** The most processes a CPU can run while it passes over a leading one. */
  function Bound(x: Scan): nat { if x.Off? then NPROC - 1 else NPROC }

  /** Round robin: while a process stays runnable, a CPU passes it over at most NPROC - 1 times,
      and once more if a scan was under way, whatever the other CPUs do. */
  lemma {:induction false} RoundRobinFair(states: seq<Sched>, events: seq<Event>, c: nat, p: nat, i: nat, j: nat)
    requires Path(Rr, states, events) && c < NCPU && p < NPROC && i <= j < |states|
    requires forall k :: i <= k <= j ==> In(states[k], p, Runnable)
    ensures c < |states[i].scans| && Passes(Rr, states, events, c, i, j) <= Bound(states[i].scans[c])
  {
    forall k | i <= k <= j ensures Leads(Rr, states[k], p) {
      Shapes(Rr, states, events, k);
      assert In(states[k], p, Runnable);
    }
    Rotation(Rr, states, events, c, p, i, j);
  }

  /** Static priority: the same, while its priority stays and no runnable process has a higher one. */
  lemma {:induction false} PriorityFair(states: seq<Sched>, events: seq<Event>, c: nat, p: nat, i: nat, j: nat)
    requires Path(Priority, states, events) && c < NCPU && p < NPROC && i <= j < |states|
    requires forall k :: i <= k <= j ==> p < |states[k].procs| && IsTop(states[k].procs, p)
    requires SamePriority(states, p, i, j)
    ensures c < |states[i].scans| && Passes(Priority, states, events, c, i, j) <= Bound(states[i].scans[c])
  {
    forall k | i <= k <= j ensures Leads(Priority, states[k], p) {
      Shapes(Priority, states, events, k);
    }
    Rotation(Priority, states, events, c, p, i, j);
  }

  // ---------------------------------------------------------------- time slices

  /** The level is 0, 1 or 2; the ticks used since the last refill and the remaining slice make
      up the level's slice, of which something is left. */
  ghost predicate SliceOk(p: Proc, used: nat, ticks: nat) {
    p.state != Unused ==>
      0 <= p.level < LEVELS && p.slice > 0 && used + p.slice == TimeSlice(p.level) && p.since <= ticks
  }

  ghost predicate SlicesOk(s: Sched) {
    Shape(s) && forall i :: 0 <= i < NPROC ==> SliceOk(s.procs[i], s.used[i], s.ticks)
  }

  lemma {:induction false} AgeKeeps(p: Proc, used: nat, t: nat)
    requires SliceOk(p, used, t)
    ensures SliceOk(Age(p, t), Refill(p, used, t), t) && Age(p, t).level <= p.level
  {
  }

  /** One process changes, and the clock may advance. */
  lemma {:induction false} PutKeeps(s: Sched, i: nat, p: Proc, used: nat, ticks: nat)
    requires SlicesOk(s) && i < NPROC && ticks >= s.ticks && SliceOk(p, used, ticks)
    ensures SlicesOk(Put(s.(ticks := ticks), i, p, used))
  {
    var s' := Put(s.(ticks := ticks), i, p, used);
    forall k | 0 <= k < NPROC ensures SliceOk(s'.procs[k], s'.used[k], s'.ticks) {
      assert SliceOk(s.procs[k], s.used[k], s.ticks);
    }
  }

  lemma {:induction false} RanKeeps(s: Sched, q: nat, c: nat)
    requires SlicesOk(s) && q < NPROC && c < NCPU && s.procs[q].state != Unused
    ensures SlicesOk(Ran(s, q, c))
  {
    assert SliceOk(s.procs[q], s.used[q], s.ticks);
    PutKeeps(s, q, s.procs[q].(state := Running), s.used[q], s.ticks);
  }

  lemma {:induction false} AgingKeeps(s: Sched, i: nat)
    requires SlicesOk(s) && i < NPROC
    ensures SlicesOk(Aging(Mlfq, s, i)) && Aging(Mlfq, s, i).procs[i].level <= s.procs[i].level
  {
    assert SliceOk(s.procs[i], s.used[i], s.ticks);
    AgeKeeps(s.procs[i], s.used[i], s.ticks);
    PutKeeps(s, i, Age(s.procs[i], s.ticks), Refill(s.procs[i], s.used[i], s.ticks), s.ticks);
  }

  lemma {:induction false} ScansDiffer(s: Sched, t: Sched)
    requires SlicesOk(s) && Shape(t) && t.procs == s.procs && t.used == s.used && t.ticks == s.ticks
    ensures SlicesOk(t)
  {
    forall k | 0 <= k < NPROC ensures SliceOk(t.procs[k], t.used[k], t.ticks) {
      assert SliceOk(s.procs[k], s.used[k], s.ticks);
    }
  }

  /** A step of a scan ages one process and perhaps runs it. */
  lemma {:induction false} ScanKeeps(s: Sched, e: Event)
    requires SlicesOk(s) && Enabled(Mlfq, s, e) && (e.BeginEvent? || e.LookEvent? || e.ChooseEvent?)
    ensures SlicesOk(Do(Mlfq, s, e))
  {
    if e.LookEvent? {
      AgingKeeps(s, Here(s, e.c));
      ScansDiffer(Aging(Mlfq, s, Here(s, e.c)), Do(Mlfq, s, e));
    } else if e.ChooseEvent? && s.scans[e.c].best >= 0 {
      var t := Aging(Mlfq, s, s.scans[e.c].best);
      AgingKeeps(s, s.scans[e.c].best);
      if StillGood(Mlfq, s, e.c) {
        RanKeeps(t, s.scans[e.c].best, e.c);
      } else {
        ScansDiffer(t, Do(Mlfq, s, e));
      }
    } else {
      ScansDiffer(s, Do(Mlfq, s, e));
    }
  }

  /** What a tick makes of the running process. */
  lemma {:induction false} TickKeeps(p: Proc, used: nat, ticks: nat, ticks': nat, sees: bool)
    requires SliceOk(p, used, ticks) && p.state == Running && ticks <= ticks'
    ensures var r := Ticked(p);
            if Preempted(Mlfq, r, sees)
            then SliceOk(Yielded(Mlfq, r, used + 1, ticks').0, Yielded(Mlfq, r, used + 1, ticks').1, ticks')
            else SliceOk(r, used + 1, ticks')
  {
  }

  lemma {:induction false} StepKeepsSlices(s: Sched, e: Event)
    requires SlicesOk(s) && Enabled(Mlfq, s, e)
    ensures SlicesOk(Do(Mlfq, s, e))
  {
    var s' := Do(Mlfq, s, e);
    if e.BeginEvent? || e.LookEvent? || e.ChooseEvent? {
      ScanKeeps(s, e);
    } else if e != ClockEvent {
      assert SliceOk(s.procs[e.i], s.used[e.i], s.ticks);
      if e.TickEvent? {
        TickKeeps(s.procs[e.i], s.used[e.i], s.ticks, s'.ticks, e.sees);
      }
      PutKeeps(s, e.i, s'.procs[e.i], s'.used[e.i], s'.ticks);
    }
  }

  /** In every state of every MLFQ run, on any number of CPUs, through any preemptions. */
  lemma {:induction false} SlicesHold(states: seq<Sched>, events: seq<Event>, k: nat)
    requires Path(Mlfq, states, events) && k < |states|
    ensures SlicesOk(states[k])
  {
    if k > 0 {
      SlicesHold(states, events, k - 1);
      assert StepAt(Mlfq, states, events, k - 1);
      StepKeepsSlices(states[k - 1], events[k - 1]);
    }
  }

  lemma {:induction false} SliceHolds(states: seq<Sched>, events: seq<Event>, k: nat, p: nat)
    requires Path(Mlfq, states, events) && k < |states| && p < NPROC
    ensures Shape(states[k]) && SliceOk(states[k].procs[p], states[k].used[p], states[k].ticks)
  {
    SlicesHold(states, events, k);
  }

  /** A process is demoted only at a yield, by a tick that uses up its whole slice. */
  lemma {:induction false} DemotedAfterWholeSlice(states: seq<Sched>, events: seq<Event>, k: nat, i: nat)
    requires Path(Mlfq, states, events) && k < |events| && i < NPROC && Shape(states[k]) && Shape(states[k + 1])
    requires states[k].procs[i].state != Unused && states[k + 1].procs[i].level > states[k].procs[i].level
    ensures events[k].TickEvent? && events[k].i == i && states[k + 1].procs[i].state == Runnable
    ensures states[k].used[i] + 1 == TimeSlice(states[k].procs[i].level)
    ensures states[k + 1].used[i] == 0 && states[k + 1].procs[i].level == states[k].procs[i].level + 1
  {
    SlicesHold(states, events, k);
    assert StepAt(Mlfq, states, events, k);
    assert SliceOk(states[k].procs[i], states[k].used[i], states[k].ticks);
  }

  // ---------------------------------------------------------------- after a change of policy

  /** A tick under another policy sets the remaining slice to 1, and the process keeps its level.
      If the system then changes to MLFQ, used and remaining slice make up the level's slice if
      and only if just one tick of it was left. */
  lemma {:induction false} SliceAfterOther(policy: Policy, p: Proc, used: nat, t: nat)
    requires policy != Mlfq && p.state == Running && SliceOk(p, used, t)
    ensures var (q, u) := Yielded(policy, Ticked(p), used + 1, t);
            SliceOk(q, u, t) <==> used + 2 == TimeSlice(p.level)
  {
  }

  /** For instance a process on level 0, whose slice is one tick, that runs a tick under round
      robin is demoted by its second tick after a change to MLFQ. */
  lemma {:induction false} DemotedLate(t: nat)
    ensures var p := Proc(Running, 0, 0, 1, t);
            var (q, u) := Yielded(Rr, Ticked(p), 1, t);
            var (r, v) := Yielded(Mlfq, Ticked(q.(state := Running)), u + 1, t);
            SliceOk(p, 0, t) && q.level == 0 && r.level == 1 && u + 1 == 2 > TimeSlice(0)
  {
  }

  // ---------------------------------------------------------------- starvation

  /** A scheduler looks at slot `p`. */
  ghost predicate LooksAt(s: Sched, e: Event, p: nat) {
    Shape(s) && Enabled(Mlfq, s, e) && e.LookEvent? && Here(s, e.c) == p
  }

  /** What an event can do to a process that is runnable before and after it: lift it, now. */
  lemma {:induction false} WaitStep(s: Sched, e: Event, p: nat)
    requires Shape(s) && Enabled(Mlfq, s, e) && p < NPROC && SliceOk(s.procs[p], s.used[p], s.ticks)
    requires s.procs[p].state == Runnable && Do(Mlfq, s, e).procs[p].state == Runnable
    ensures var x, y := s.procs[p], Do(Mlfq, s, e).procs[p];
            && (y.level < x.level || (y.level == x.level && y.since == x.since))
            && (LooksAt(s, e, p) ==> y.level == Age(x, s.ticks).level && y.since == Age(x, s.ticks).since)
    ensures Do(Mlfq, s, e).ticks >= s.ticks && (LooksAt(s, e, p) ==> Do(Mlfq, s, e).ticks == s.ticks)
  {
  }

  ghost predicate WaitsThrough(states: seq<Sched>, p: nat, i: nat, j: nat) {
    p < NPROC && i <= j < |states| && forall k :: i <= k <= j ==> In(states[k], p, Runnable)
  }

  /** The level stays or falls; while it stays, the process has been ready since the same tick. */
  ghost predicate Later(s: Sched, t: Sched, p: nat)
    requires p < |s.procs| && p < |t.procs|
  {
    && s.ticks <= t.ticks && t.procs[p].since <= t.ticks && t.procs[p].level <= s.procs[p].level
    && (t.procs[p].level == s.procs[p].level ==> t.procs[p].since == s.procs[p].since)
  }

  lemma {:induction false} WaitNext(states: seq<Sched>, events: seq<Event>, p: nat, k: nat)
    requires Path(Mlfq, states, events) && k < |events| && p < NPROC && In(states[k], p, Runnable)
             && In(states[k + 1], p, Runnable)
    ensures Later(states[k], states[k + 1], p)
  {
    SliceHolds(states, events, k, p);
    SliceHolds(states, events, k + 1, p);
    assert StepAt(Mlfq, states, events, k);
    WaitStep(states[k], events[k], p);
  }

  lemma {:induction false} WaitsFrom(states: seq<Sched>, events: seq<Event>, p: nat, i: nat, j: nat)
    requires Path(Mlfq, states, events) && WaitsThrough(states, p, i, j)
    ensures Later(states[i], states[j], p)
    decreases j
  {
    if i < j {
      WaitsFrom(states, events, p, i, j - 1);
      WaitNext(states, events, p, j - 1);
    } else {
      SliceHolds(states, events, i, p);
    }
  }

  /** The first look, by any CPU, after 8 ticks of waiting lifts the process. */
  lemma {:induction false} Lifted(states: seq<Sched>, events: seq<Event>, p: nat, i: nat, k: nat)
    requires Path(Mlfq, states, events) && k < |events| && WaitsThrough(states, p, i, k + 1) && i <= k
             && LooksAt(states[k], events[k], p)
    requires states[k].ticks >= states[i].procs[p].since + AGING
    ensures states[i].procs[p].level > 0 ==> states[k + 1].procs[p].level < states[i].procs[p].level
    ensures states[k + 1].procs[p].since <= states[k].ticks
  {
    WaitsFrom(states, events, p, i, k);
    WaitsFrom(states, events, p, i, k + 1);
    SliceHolds(states, events, k, p);
    assert StepAt(Mlfq, states, events, k);
    WaitStep(states[k], events[k], p);
  }

  /** After two such looks, 8 ticks apart, it is on level 0. */
  lemma {:induction false} LiftedTwice(states: seq<Sched>, events: seq<Event>, p: nat, i: nat, a: nat, b: nat)
    requires Path(Mlfq, states, events) && i <= a < b < |events| && WaitsThrough(states, p, i, b + 1)
    requires LooksAt(states[a], events[a], p) && LooksAt(states[b], events[b], p)
    requires states[a].ticks >= states[i].procs[p].since + AGING && states[b].ticks >= states[a].ticks + AGING
    ensures states[b + 1].procs[p].level == 0
  {
    SliceHolds(states, events, i, p);
    SliceHolds(states, events, b + 1, p);
    WaitsFrom(states, events, p, i, a + 1);
    Lifted(states, events, p, i, a);
    WaitsFrom(states, events, p, a + 1, b + 1);
    Lifted(states, events, p, a + 1, b);
  }

  /** CPU `c` makes a complete scan from state `x` to state `y`. */
  ghost predicate Scans(states: seq<Sched>, c: nat, x: nat, y: nat) {
    && x <= y < |states| && Shape(states[x]) && Shape(states[y]) && c < NCPU
    && (states[x].scans[c].Off? || states[x].scans[c].d == 0) && states[y].scans[c].On? && states[y].scans[c].d == NPROC
  }

  /** A scan that is past `p` has looked at it. */
  lemma {:induction false} PastLooked(states: seq<Sched>, events: seq<Event>, c: nat, p: nat, x: nat, y: nat)
    returns (k: nat)
    requires Path(Mlfq, states, events) && x <= y < |states| && c < NCPU && p < NPROC
    requires Shape(states[x]) && (states[x].scans[c].Off? || states[x].scans[c].d == 0)
    requires Shape(states[y]) && states[y].scans[c].On? && states[y].scans[c].d > Behind(states[y].cursors[c], p)
    ensures x <= k < y && LooksAt(states[k], events[k], p)
    decreases y
  {
    var s, e := states[y - 1], events[y - 1];
    assert StepAt(Mlfq, states, events, y - 1);
    if LooksAt(s, e, p) {
      return y - 1;
    }
    StillPast(s, e, c, p);
    k := PastLooked(states, events, c, p, x, y - 1);
  }

  lemma {:induction false} StillPast(s: Sched, e: Event, c: nat, p: nat)
    requires Shape(s) && Enabled(Mlfq, s, e) && c < NCPU && p < NPROC && !LooksAt(s, e, p)
    requires var s' := Do(Mlfq, s, e); s'.scans[c].On? && s'.scans[c].d > Behind(s'.cursors[c], p)
    ensures s.scans[c].On? && s.scans[c].d > Behind(s.cursors[c], p)
  {
    if e == LookEvent(c) {
      SlotBehind(s.cursors[c], s.scans[c].d);
    } else if e != BeginEvent(c) && e != ChooseEvent(c) {
      OtherFair(Mlfq, s, e, c);
    }
  }

  /** Starvation freedom. A process is runnable from state `i` to state `j`. Some CPU makes a
      complete scan from `x` to `y`, begun 8 ticks after the process became ready, and some CPU
      makes another from `x2` to `y2`, begun 8 ticks after the first ended. From `y2` on the
      process is on level 0, and every CPU passes it over at most NPROC - 1 times, and once more
      if it is in the middle of a scan at `y2`, whatever the other CPUs do. */
  lemma {:induction false} MlfqStarvationFree(
    states: seq<Sched>, events: seq<Event>, a: nat, b: nat, c: nat, p: nat,
    i: nat, x: nat, y: nat, x2: nat, y2: nat, j: nat)
    requires Path(Mlfq, states, events) && c < NCPU && i <= x && y <= x2 && y2 <= j && WaitsThrough(states, p, i, j)
    requires Scans(states, a, x, y) && Scans(states, b, x2, y2)
    requires states[x].ticks >= states[i].procs[p].since + AGING && states[x2].ticks >= states[y].ticks + AGING
    ensures forall k :: y2 <= k <= j ==> states[k].procs[p].level == 0
    ensures Passes(Mlfq, states, events, c, y2, j) <= Bound(states[y2].scans[c])
  {
    var k1 := PastLooked(states, events, a, p, x, y);
    var k2 := PastLooked(states, events, b, p, x2, y2);
    WaitsFrom(states, events, p, x, k1);
    WaitsFrom(states, events, p, k1, y);
    WaitsFrom(states, events, p, x2, k2);
    LiftedTwice(states, events, p, i, k1, k2);
    forall k | y2 <= k <= j ensures states[k].procs[p].level == 0 && Leads(Mlfq, states[k], p) {
      SlicesHold(states, events, k);
      SliceHolds(states, events, k, p);
      WaitsFrom(states, events, p, k2 + 1, k);
      assert In(states[k], p, Runnable);
    }
    Rotation(Mlfq, states, events, c, p, y2, j);
  }

  // ---------------------------------------------------------------- the code

  /** A scan that found nothing acceptable before distance `d`, and there `ok`. */
  lemma {:induction false} ScanFound(c: nat, ok: seq<bool>, d: nat)
    requires c < NPROC && |ok| == NPROC && d < NPROC && ok[Slot(c, d)] && forall e :: 0 <= e < d ==> !ok[Slot(c, e)]
    ensures Pick(c, ok, 0) == Slot(c, d)
  {
    PickSkips(c, ok, d);
  }

  lemma {:induction false} ScanEmpty(c: nat, ok: seq<bool>)
    requires c < NPROC && |ok| == NPROC && forall e :: 0 <= e < NPROC ==> !ok[Slot(c, e)]
    ensures Pick(c, ok, 0) == -1
  {
    PickSkips(c, ok, NPROC);
  }

  /** Every slot comes up once in a scan. */
  lemma {:induction false} Scanned(c: nat, p: nat)
    requires c < NPROC && p < NPROC
    ensures Slot(c, Behind(c, p)) == p
  {
  }

  /** Among the first `d` slots, slot `best` at distance `bd` is the first of highest priority. */
  ghost predicate BestSoFar(procs: seq<Proc>, c: nat, d: nat, bd: nat, best: int, priority: int) {
    && |procs| == NPROC && c < NPROC && bd < d <= NPROC && best == Slot(c, bd)
    && procs[best].state == Runnable && procs[best].priority == priority
    && forall e :: 0 <= e < d && procs[Slot(c, e)].state == Runnable ==>
         procs[Slot(c, e)].priority <= priority && (e < bd ==> procs[Slot(c, e)].priority < priority)
  }

  lemma {:induction false} BestIsFirst(procs: seq<Proc>, c: nat, bd: nat, best: nat, priority: int)
    requires BestSoFar(procs, c, NPROC, bd, best, priority)
    ensures Pick(c, Topmost(procs), 0) == best
  {
    forall i | 0 <= i < NPROC && procs[i].state == Runnable ensures procs[i].priority <= priority {
      Scanned(c, i);
    }
    forall e | 0 <= e < bd ensures !Topmost(procs)[Slot(c, e)] {
      assert procs[Slot(c, e)].state == Runnable ==> procs[Slot(c, e)].priority < priority;
    }
    ScanFound(c, Topmost(procs), bd);
  }

  ghost predicate LowestSoFar(procs: seq<Proc>, c: nat, d: nat, bd: nat, best: int, level: int) {
    && |procs| == NPROC && c < NPROC && bd < d <= NPROC && best == Slot(c, bd)
    && procs[best].state == Runnable && procs[best].level == level < LEVELS
    && forall e :: 0 <= e < d && procs[Slot(c, e)].state == Runnable ==>
         procs[Slot(c, e)].level >= level && (e < bd ==> procs[Slot(c, e)].level > level)
  }

  /** The state of the scan after `d` slots. */
  ghost predicate ScanOk(procs: seq<Proc>, c: nat, d: nat, bd: nat, best: int, level: int) {
    && |procs| == NPROC && c < NPROC && d <= NPROC
    && if best == -1 then level == LEVELS && forall e :: 0 <= e < d ==> procs[Slot(c, e)].state != Runnable
       else LowestSoFar(procs, c, d, bd, best, level)
  }

  lemma {:induction false} ScanStep(procs: seq<Proc>, p: Proc, c: nat, d: nat, bd: nat, best: int, level: int)
    requires ScanOk(procs, c, d, bd, best, level) && d < NPROC && (p.state == Runnable ==> p.level < LEVELS)
    ensures var i := Slot(c, d);
            if p.state == Runnable && p.level < level then ScanOk(procs[i := p], c, d + 1, d, i, p.level)
            else ScanOk(procs[i := p], c, d + 1, bd, best, level)
  {
    assert forall e :: 0 <= e < d ==> Slot(c, e) != Slot(c, d);
  }

  lemma {:induction false} LowestIsFirst(procs: seq<Proc>, c: nat, bd: nat, best: nat, level: int)
    requires LowestSoFar(procs, c, NPROC, bd, best, level)
    ensures Pick(c, Foremost(procs), 0) == best
  {
    forall i | 0 <= i < NPROC && procs[i].state == Runnable ensures procs[i].level >= level {
      Scanned(c, i);
    }
    forall e | 0 <= e < bd ensures !Foremost(procs)[Slot(c, e)] {
      assert procs[Slot(c, e)].state == Runnable ==> procs[Slot(c, e)].level > level;
    }
    ScanFound(c, Foremost(procs), bd);
  }

  /** The first `d` slots from the cursor are aged, the others are as they were. */
  ghost predicate AgedUpTo(start: seq<Proc>, procs: seq<Proc>, t: nat, c: nat, d: nat) {
    && |start| == |procs| == NPROC && c < NPROC
    && forall i :: 0 <= i < NPROC ==> procs[i] == if Behind(c, i) < d then Age(start[i], t) else start[i]
  }

  lemma {:induction false} AgeStep(start: seq<Proc>, procs: seq<Proc>, t: nat, c: nat, d: nat)
    requires AgedUpTo(start, procs, t, c, d) && d < NPROC
    ensures var i := Slot(c, d); AgedUpTo(start, procs[i := Age(procs[i], t)], t, c, d + 1)
    ensures forall e :: 0 <= e < d ==> Slot(c, e) != Slot(c, d)
  {
  }

  lemma {:induction false} AllAged(start: seq<Proc>, procs: seq<Proc>, t: nat, c: nat)
    requires AgedUpTo(start, procs, t, c, NPROC)
    ensures procs == Aged(start, t)
  {
  }

  lemma {:induction false} AgedLevel(s: Sched, i: nat)
    requires SlicesOk(s) && i < NPROC
    ensures Age(s.procs[i], s.ticks).state == Runnable ==> Age(s.procs[i], s.ticks).level < LEVELS
  {
    assert SliceOk(s.procs[i], s.used[i], s.ticks);
    AgeKeeps(s.procs[i], s.used[i], s.ticks);
  }

  /** One turn of the MLFQ scan. */
  lemma {:induction false} MlfqTurn(s: Sched, procs: seq<Proc>, c: nat, d: nat, bd: nat, best: int, level: int)
    requires SlicesOk(s) && |procs| == NPROC && c < NPROC && d < NPROC && AgedUpTo(s.procs, procs, s.ticks, c, d)
    requires ScanOk(procs, c, d, bd, best, level)
    ensures var i := Slot(c, d);
            var p := Age(procs[i], s.ticks);
            && AgedUpTo(s.procs, procs[i := p], s.ticks, c, d + 1)
            && if p.state == Runnable && p.level < level then ScanOk(procs[i := p], c, d + 1, d, i, p.level)
               else ScanOk(procs[i := p], c, d + 1, bd, best, level)
  {
    AgeStep(s.procs, procs, s.ticks, c, d);
    AgedLevel(s, Slot(c, d));
    ScanStep(procs, Age(procs[Slot(c, d)], s.ticks), c, d, bd, best, level);
  }

  class Kernel {
    const policy: Policy
    var procs: seq<Proc>
    var cursors: seq<nat>
    var scans: seq<Scan>
    var ticks: nat
    ghost var used: seq<nat>

    ghost function S(): Sched
      reads this
    {
      Sched(procs, cursors, scans, ticks, used)
    }

    constructor (p: Policy)
      ensures Start(S()) && policy == p
    {
      policy := p;
      procs := seq(NPROC, _ => Proc(Unused, 0, 0, 0, 0));
      cursors := seq(NCPU, _ => 0);
      scans := seq(NCPU, _ => Off);
      ticks := 0;
      used := seq(NPROC, _ => 0);
    }

    /** rr_select_next, when nothing else happens meanwhile. */
    method RrSelect(c: nat) returns (q: int)
      requires Shape(S()) && c < NCPU
      modifies `cursors
      ensures q == Pick(old(cursors)[c], Ready(procs), 0)
      ensures cursors == if q == -1 then old(cursors) else old(cursors)[c := Next(q)]
    {
      var start, d := cursors[c], 0;
      while d < NPROC
        invariant d <= NPROC && cursors == old(cursors) && forall e :: 0 <= e < d ==>
                    procs[Slot(start, e)].state != Runnable
      {
        var index := Slot(start, d);
        if procs[index].state == Runnable {
          ScanFound(start, Ready(procs), d);
          cursors := cursors[c := Next(index)];
          return index;
        }
        d := d + 1;
      }
      ScanEmpty(start, Ready(procs));
      return -1;
    }

    /** priority_select_next, when nothing else happens meanwhile. */
    method PrioritySelect(c: nat) returns (q: int)
      requires Shape(S()) && c < NCPU
      modifies `cursors
      ensures q == Pick(old(cursors)[c], Topmost(procs), 0)
      ensures cursors == if q == -1 then old(cursors) else old(cursors)[c := Next(q)]
    {
      var start, d := cursors[c], 0;
      var best: int, bestPriority: int := -1, 0;
      ghost var bd := 0;
      while d < NPROC
        invariant d <= NPROC && cursors == old(cursors)
        invariant best == -1 ==> forall e :: 0 <= e < d ==> procs[Slot(start, e)].state != Runnable
        invariant best != -1 ==> BestSoFar(procs, start, d, bd, best, bestPriority)
      {
        var index := Slot(start, d);
        var p := procs[index];
        if p.state == Runnable && (best == -1 || p.priority > bestPriority) {
          best, bestPriority, bd := index, p.priority, d;
        }
        d := d + 1;
      }
      if best == -1 {
        ScanEmpty(start, Topmost(procs));
        return -1;
      }
      BestIsFirst(procs, start, bd, best, bestPriority);
      cursors := cursors[c := Next(best)];
      return best;
    }

    /** mlfq_select_next, when nothing else happens meanwhile: ages every process on the way. */
    method MlfqSelect(c: nat) returns (q: int)
      requires SlicesOk(S()) && c < NCPU
      modifies `cursors, `procs
      ensures |procs| == NPROC && procs == Aged(old(procs), ticks)
      ensures q == Pick(old(cursors)[c], Foremost(procs), 0)
      ensures cursors == if q == -1 then old(cursors) else old(cursors)[c := Next(q)]
    {
      ghost var was := S();
      var start, d := cursors[c], 0;
      var best: int, bestLevel: int := -1, LEVELS;
      ghost var bd := 0;
      while d < NPROC
        invariant d <= NPROC && cursors == old(cursors) && |procs| == NPROC
        invariant AgedUpTo(was.procs, procs, ticks, start, d)
        invariant ScanOk(procs, start, d, bd, best, bestLevel)
      {
        var index := Slot(start, d);
        var p := Age(procs[index], ticks);
        MlfqTurn(was, procs, start, d, bd, best, bestLevel);
        procs := procs[index := p];
        if p.state == Runnable && p.level < bestLevel {
          best, bestLevel, bd := index, p.level, d;
        }
        d := d + 1;
      }
      AllAged(was.procs, procs, ticks, start);
      if best == -1 {
        ScanEmpty(start, Foremost(procs));
        return -1;
      }
      LowestIsFirst(procs, start, bd, best, bestLevel);
      cursors := cursors[c := Next(best)];
      return best;
    }

    /** Among other CPUs: a scan begins. */
    method Begin(c: nat)
      requires Shape(S()) && Enabled(policy, S(), BeginEvent(c))
      modifies this
      ensures S() == Do(policy, old(S()), BeginEvent(c))
    {
      scans := scans[c := On(0, -1, LEVELS)];
    }

    /** mlfq_age_locked, under MLFQ. */
    method AgeLocked(i: nat)
      requires Shape(S()) && i < NPROC
      modifies `procs, `used
      ensures S() == Aging(policy, old(S()), i)
    {
      var p := procs[i];
      if policy == Mlfq {
        if p.state == Runnable && ticks >= p.since + AGING && p.level > 0 {
          p := p.(level := p.level - 1, slice := TimeSlice(p.level - 1), since := ticks);
        }
        used := used[i := Refill(procs[i], used[i], ticks)];
        procs := procs[i := p];
      }
    }

    /** scheduler runs the process it has locked. */
    method RunProc(c: nat, i: nat)
      requires Shape(S()) && c < NCPU && i < NPROC
      modifies this
      ensures S() == Ran(old(S()), i, c)
    {
      procs := procs[i := procs[i].(state := Running)];
      assert used[i := used[i]] == used;
      cursors, scans := cursors[c := Next(i)], scans[c := Off];
    }

    /** One turn of the loop over the table, of any policy. */
    method Look(c: nat)
      requires Shape(S()) && Enabled(policy, S(), LookEvent(c))
      modifies this
      ensures S() == Do(policy, old(S()), LookEvent(c))
    {
      var x := scans[c];
      SlotIsMod(cursors[c], x.d);
      var index := (cursors[c] + x.d) % NPROC;
      AgeLocked(index);
      var p := procs[index];
      if policy == Rr && p.state == Runnable {
        RunProc(c, index);
      } else if p.state == Runnable
             && ((policy == Priority && (x.best == -1 || p.priority > x.key)) || (policy == Mlfq && p.level < x.key)) {
        scans := scans[c := On(x.d + 1, index, if policy == Mlfq then p.level else p.priority)];
      } else {
        scans := scans[c := x.(d := x.d + 1)];
      }
    }

    /** The end of the loop: the candidate is locked again, and runs if it is still good;
        otherwise the scan starts over. */
    method Choose(c: nat)
      requires Shape(S()) && Enabled(policy, S(), ChooseEvent(c))
      modifies this
      ensures S() == Do(policy, old(S()), ChooseEvent(c))
    {
      var x := scans[c];
      if x.best == -1 {
        scans := scans[c := Off];
        return;
      }
      AgeLocked(x.best);
      var p := procs[x.best];
      if p.state == Runnable && (policy == Mlfq ==> p.level <= x.key) {
        RunProc(c, x.best);
      } else {
        scans := scans[c := On(0, -1, LEVELS)];
      }
    }

    /** sched_proc_init and making the process runnable. */
    method StartProc(i: nat)
      requires Shape(S()) && i < NPROC && procs[i].state == Unused
      modifies this
      ensures S() == Do(policy, old(S()), StartEvent(i))
    {
      procs := procs[i := Proc(Runnable, 0, 0, 1, ticks)];
      used := used[i := 0];
    }

    /** yield's hooks. */
    method OnYield(i: nat)
      requires Shape(S()) && i < NPROC
      modifies this
      ensures var (p, u) := Yielded(policy, old(procs)[i], old(used)[i], ticks); S() == Put(old(S()), i, p, u)
    {
      var p := procs[i].(state := Runnable, since := ticks);
      if policy == Mlfq {
        p := p.(level := Clamp(p.level));
        if p.slice <= 0 {
          if p.level < LEVELS - 1 {
            p := p.(level := p.level + 1);
          }
          p := p.(slice := TimeSlice(p.level));
          used := used[i := 0];
        }
        p := p.(since := ticks);
      } else {
        p := p.(slice := 1);
      }
      assert used == used[i := used[i]];
      procs := procs[i := p];
    }

    /** mlfq_should_preempt: a used-up slice, or a runnable process on a better level. */
    method ShouldPreempt(i: nat) returns (yes: bool)
      requires |procs| == NPROC && i < NPROC
      ensures yes <==> policy != Mlfq || procs[i].slice <= 0
                       || exists k :: 0 <= k < NPROC && procs[k].state == Runnable && procs[k].level < procs[i].level
    {
      if policy != Mlfq || procs[i].slice <= 0 {
        return true;
      }
      var k := 0;
      while k < NPROC
        invariant k <= NPROC && forall j :: 0 <= j < k ==>
                    !(procs[j].state == Runnable && procs[j].level < procs[i].level)
      {
        if procs[k].state == Runnable && procs[k].level < procs[i].level {
          return true;
        }
        k := k + 1;
      }
      return false;
    }

    /** The timer interrupt while process `i` runs; `clock` says whether this is CPU 0. */
    method Tick(i: nat, clock: bool) returns (sees: bool)
      requires Shape(S()) && i < NPROC && procs[i].state == Running
      modifies this
      ensures S() == Do(policy, old(S()), TickEvent(i, clock, sees))
    {
      if clock {
        ticks := ticks + 1;
      }
      if procs[i].slice > 0 {
        procs := procs[i := procs[i].(slice := procs[i].slice - 1)];
      }
      used := used[i := used[i] + 1];
      sees := ShouldPreempt(i);
      if sees {
        OnYield(i);
      }
      assert procs[i := procs[i]] == procs;
    }

    /** wakeup of a sleeping process, and its hooks. */
    method Wakeup(i: nat)
      requires Shape(S()) && i < NPROC && procs[i].state == Sleeping
      modifies this
      ensures S() == Do(policy, old(S()), WakeupEvent(i))
    {
      var p := procs[i].(state := Runnable, since := ticks);
      if policy == Mlfq {
        p := p.(level := Clamp(p.level));
        if p.level > 0 {
          p := p.(level := p.level - 1);
        }
        p := p.(slice := TimeSlice(p.level), since := ticks);
        used := used[i := 0];
      }
      assert used == used[i := used[i]];
      procs := procs[i := p];
    }
  }
}
