/** The virtio disk driver and the device it drives (kernel/virtio_disk.c; sections 2.6 and
    5.2 of VIRTIO 1.1): a table of descriptors, a ring by which the driver hands requests to
    the device, and a ring by which the device hands them back.

    The driver's code is cut into steps: each turn of its loops and each store that the device
    could see is one. The device may take any of its own steps between any two of them. */
module Virtio {

  const U16: nat := 0x1_0000
  type RingSize = n: nat | 3 <= n < U16 && U16 % n == 0 witness 8
  const NUM: RingSize

  // ---------------------------------------------------------------- ring indices

  /** Division with remainder is unique. */
  lemma {:induction false} ModUnique(x: nat, n: nat, q: int, r: nat)
    requires n > 0 && x == n * q + r && r < n
    ensures x % n == r
  {
    var d := q - x / n;
    assert n * d == n * q - n * (x / n);
    assert n * d == x % n - r;
    assert d >= 1 ==> n * d >= n;
    assert d <= -1 ==> n * d + n <= 0;
  }

  lemma {:induction false} AddOnce(i: nat, n: nat)
    requires n > 0
    ensures (i + n) % n == i % n
  {
    assert n * (i / n + 1) == n * (i / n) + n;
    ModUnique(i + n, n, i / n + 1, i % n);
  }

  lemma {:induction false} AddMany(i: nat, n: nat, k: nat)
    requires n > 0
    ensures (i + n * k) % n == i % n
  {
    if k > 0 {
      AddMany(i, n, k - 1);
      AddOnce(i + n * (k - 1), n);
      assert i + n * k == i + n * (k - 1) + n;
    }
  }

  /** The slot of an index does not change when the index wraps around at 16 bits. */
  lemma {:induction false} SlotWraps(i: nat)
    ensures i % U16 % NUM == i % NUM
  {
    var k := U16 / NUM;
    assert U16 == NUM * k;
    assert i == i % U16 + NUM * (k * (i / U16)) by {
      assert i == U16 * (i / U16) + i % U16;
      assert U16 * (i / U16) == NUM * k * (i / U16) == NUM * (k * (i / U16));
    }
    AddMany(i % U16, NUM, k * (i / U16));
  }

  /** Indices less than a ring apart have different slots. */
  lemma {:induction false} SlotsDiffer(a: nat, b: nat)
    requires a < b < a + NUM
    ensures a % NUM != b % NUM
  {
    var n: nat, r := NUM, a % NUM;
    assert n * (a / n + 1) == n * (a / n) + n;
    if r + (b - a) < n {
      ModUnique(b, n, a / n, r + (b - a));
    } else {
      ModUnique(b, n, a / n + 1, r + (b - a) - n);
    }
  }

  ghost predicate Distinct(s: seq<nat>) { forall i, j :: 0 <= i < j < |s| ==> s[i] != s[j] }

  /** The ring slot `k` places after index `start`. */
  function Slot(start: nat, k: nat): (s: nat)
    ensures s < NUM
  {
    (start + k) % NUM
  }

  /** The slot that a 16-bit index selects. */
  function RingSlot(idx: nat): (s: nat)
    ensures s < NUM
  {
    idx % NUM
  }

  lemma SlotOfIndex(start: nat, n: nat)
    ensures RingSlot((start + n) % U16) == Slot(start, n)
  {
    SlotWraps(start + n);
  }

  lemma NextIndex(start: nat, n: nat)
    ensures ((start + n) % U16 + 1) % U16 == (start + (n + 1)) % U16
  {
  }

  /** A ring holds the requests of the queue in the slots from index `start` on. */
  ghost predicate RingIs(ring: seq<nat>, start: nat, queue: seq<nat>) {
    |ring| == NUM && Distinct(queue) && |queue| <= NUM && forall k :: 0 <= k < |queue| ==>
      ring[Slot(start, k)] == queue[k]
  }

  lemma {:induction false} Pigeonhole(s: seq<nat>, n: nat)
    requires Distinct(s) && forall i :: 0 <= i < |s| ==> s[i] < n
    ensures |s| <= n
  {
    if |s| == 0 {
      return;
    }
    assert s[0] < n;
    if exists i :: 0 <= i < |s| && s[i] == n - 1 {
      var i :| 0 <= i < |s| && s[i] == n - 1;
      Pigeonhole(s[..i] + s[i + 1..], n - 1);
    } else {
      Pigeonhole(s, n - 1);
    }
  }

  /** There is always an empty slot for a request that is not in the ring yet. */
  lemma {:induction false} RoomLeft(queue: seq<nat>, h: nat)
    requires Distinct(queue) && h !in queue && h < NUM && forall i :: 0 <= i < |queue| ==> queue[i] < NUM
    ensures |queue| < NUM
  {
    var s := queue + [h];
    assert forall i :: 0 <= i < |s| ==> s[i] < NUM;
    Pigeonhole(s, NUM);
  }

  /** Adding at the end leaves every request that is still waiting in its slot. */
  lemma {:induction false} RingPush(ring: seq<nat>, start: nat, queue: seq<nat>, h: nat)
    requires RingIs(ring, start, queue) && h !in queue && |queue| < NUM
    ensures RingIs(ring[Slot(start, |queue|) := h], start, queue + [h])
  {
    forall k | 0 <= k < |queue| ensures Slot(start, k) != Slot(start, |queue|) {
      SlotsDiffer(start + k, start + |queue|);
    }
  }

  lemma {:induction false} RingPop(ring: seq<nat>, start: nat, queue: seq<nat>)
    requires RingIs(ring, start, queue) && |queue| > 0
    ensures ring[Slot(start, 0)] == queue[0] && RingIs(ring, start + 1, queue[1..])
  {
    var rest := queue[1..];
    forall k | 0 <= k < |rest| ensures ring[Slot(start + 1, k)] == rest[k] {
      assert Slot(start + 1, k) == Slot(start, k + 1);
      assert ring[Slot(start, k + 1)] == queue[k + 1];
    }
  }

  /** The 16-bit indices differ exactly when the ring is not empty. */
  lemma {:induction false} RingEmpty(start: nat, n: nat)
    requires n <= NUM
    ensures start % U16 == (start + n) % U16 <==> n == 0
  {
  }

  // ---------------------------------------------------------------- memory

  type Block = seq<nat>
  const BSIZE: nat := 1024

  /** What a descriptor's address points to: a request header, a buffer's data, a status byte. */
  datatype Ref = Null | OpRef(i: nat) | DataRef(b: nat) | StatusRef(i: nat)

  datatype Desc = Desc(addr: Ref, len: nat, write: bool, more: bool, next: nat)

  const ZERO: Desc := Desc(Null, 0, false, false, 0)

  datatype Req = Req(write: bool, sector: nat)

  datatype Info = Info(b: int, status: nat)

  /** What driver and device share, the driver's books, and the device's place in the available
      ring (`devIdx`). `flag[b]` is b->disk; `used` holds the ids of the used ring. */
  datatype Mem = Mem(free: seq<bool>, desc: seq<Desc>, info: seq<Info>, ops: seq<Req>,
                     avail: seq<nat>, availIdx: nat, used: seq<nat>, usedIdx: nat,
                     drvIdx: nat, devIdx: nat,
                     flag: seq<bool>, data: seq<Block>, store: map<nat, Block>)

  /** What a caller of virtio_disk_rw asks for. */
  datatype Want = Want(b: nat, write: bool, sector: nat)

  /** Where the holder of vdisk_lock is; nobody holds it at `Out`. */
  datatype Drv =
    | Out
    // alloc3_desc: with the descriptors it has so far; giving them back
    | Alloc(want: Want, got: seq<nat>) | Undo(got: seq<nat>)
    // virtio_disk_rw: about to do write number `n` of the request
    | Format(want: Want, idx: seq<nat>, n: nat)
    // virtio_disk_intr: about to compare the indices; about to handle one request
    | Check | Handle
    // free_chain at descriptor `i`
    | Freeing(i: nat)

  /** The device, in so far as it is in the middle of handing back a request. */
  datatype Dev = Idle | Returning(h: nat)

  // ---------------------------------------------------------------- requests in flight

  /** Where a request is: in the available ring, taken by the device, carried out, in the used
      ring, or seen by the driver's interrupt handler. */
  datatype Stage = Todo | Busy | Served | Done | Seen

  datatype Chain = Chain(d1: nat, d2: nat, b: nat, write: bool, sector: nat, stage: Stage)

  /** What a descriptor is used for: nothing, the request the driver is working on, or part
      `n` of the request with first descriptor `h`. */
  datatype Role = Free | Held | Part(h: nat, n: nat)

  /** The requests in flight by first descriptor and the role of each descriptor; the requests
      in the two rings, oldest first, and how many the device has taken and the driver has seen
      since the start; the descriptors that free_chain has yet to free. */
  datatype Flight = Flight(chains: map<nat, Chain>, role: seq<Role>, todo: seq<nat>, done: seq<nat>,
                           taken: nat, seen: nat, rest: seq<nat>)

  /** `waiting` has, for each buffer whose caller waits in virtio_disk_rw, its first descriptor. */
  datatype Sys = Sys(m: Mem, drv: Drv, dev: Dev, waiting: map<nat, nat>, f: Flight)

  /** The descriptors of the request that the driver is working on. */
  function HeldBy(drv: Drv, f: Flight): seq<nat> {
    match drv
    case Alloc(_, got) => got
    case Undo(got) => got
    case Format(_, idx, _) => idx
    case Freeing(_) => f.rest
    case _ => []
  }

  function Nth(h: nat, x: Chain, n: nat): nat { if n == 0 then h else if n == 1 then x.d1 else x.d2 }

  ghost predicate PartsOk(role: seq<Role>, h: nat, x: Chain) {
    && h < |role| && x.d1 < |role| && x.d2 < |role|
    && role[h] == Part(h, 0) && role[x.d1] == Part(h, 1) && role[x.d2] == Part(h, 2)
  }

  ghost predicate RoleOk(free: bool, x: Role, chains: map<nat, Chain>, i: nat) {
    && (free <==> x == Free)
    && (x.Part? ==> x.h in chains && Nth(x.h, chains[x.h], x.n) == i)
  }

  /** The free descriptors are those without a use, and each request has its three. */
  ghost predicate RolesOk(free: seq<bool>, role: seq<Role>, chains: map<nat, Chain>) {
    && |free| == |role| == NUM
    && (forall i :: 0 <= i < NUM ==> RoleOk(free[i], role[i], chains, i))
    && (forall h :: h in chains ==> PartsOk(role, h, chains[h]))
  }

  ghost predicate HeldOk(role: seq<Role>, held: seq<nat>) {
    && Distinct(held)
    && (forall k :: 0 <= k < |held| ==> held[k] < |role| && role[held[k]] == Held)
    && (forall i :: 0 <= i < |role| && role[i] == Held ==> i in held)
  }

  ghost predicate Sizes(m: Mem) {
    && |m.free| == |m.desc| == |m.info| == |m.ops| == |m.avail| == |m.used| == NUM
    && |m.flag| == |m.data|
  }

  /** The first `n` writes of a request are in memory. */
  ghost predicate Written(desc: seq<Desc>, ops: seq<Req>, info: seq<Info>,
                          h: nat, d1: nat, d2: nat, w: Want, n: nat)
  {
    && |desc| == |ops| == |info| == NUM && h < NUM && d1 < NUM && d2 < NUM
    && (n >= 1 ==> ops[h] == Req(w.write, w.sector) && desc[h] == Desc(OpRef(h), 16, false, true, d1))
    && (n >= 2 ==> desc[d1] == Desc(DataRef(w.b), BSIZE, !w.write, true, d2))
    && (n >= 3 ==> desc[d2] == Desc(StatusRef(h), 1, true, false, 0))
    && (n >= 4 ==> info[h].b == w.b)
  }

  /** The descriptors in memory say what was asked for. */
  ghost predicate ChainOk(desc: seq<Desc>, ops: seq<Req>, info: seq<Info>, h: nat, x: Chain) {
    && Written(desc, ops, info, h, x.d1, x.d2, Want(x.b, x.write, x.sector), 4)
    && (x.stage == Served || x.stage == Done ==> info[h].status == 0)
  }

  ghost predicate ChainsOk(desc: seq<Desc>, ops: seq<Req>, info: seq<Info>, chains: map<nat, Chain>) {
    forall h :: h in chains ==> ChainOk(desc, ops, info, h, chains[h])
  }

  /** Each request in flight is for one buffer, whose caller waits for it. */
  ghost predicate WaitersOk(nbuf: nat, waiting: map<nat, nat>, chains: map<nat, Chain>) {
    && (forall h :: h in chains ==> chains[h].b in waiting && waiting[chains[h].b] == h)
    && (forall b :: b in waiting ==> b < nbuf && waiting[b] in chains && chains[waiting[b]].b == b)
  }

  /** The buffer whose flag is set although its request is not in flight yet. */
  function Marked(drv: Drv): int { if drv.Format? && drv.n >= 4 then drv.want.b else -1 }

  ghost predicate Pending(waiting: map<nat, nat>, chains: map<nat, Chain>, b: nat) {
    b in waiting && waiting[b] in chains && chains[waiting[b]].stage != Seen
  }

  /** A buffer's flag is set exactly while its request is being carried out. */
  ghost predicate FlagsOk(flag: seq<bool>, waiting: map<nat, nat>, chains: map<nat, Chain>, marked: int) {
    forall b :: 0 <= b < |flag| ==> (flag[b] <==> Pending(waiting, chains, b) || b == marked)
  }

  /** A ring, its two 16-bit indices, and the requests between them. */
  ghost predicate RingOk(ring: seq<nat>, first: nat, last: nat, queue: seq<nat>, start: nat) {
    RingIs(ring, start, queue) && first == start % U16 && last == (start + |queue|) % U16
  }

  ghost predicate QueueOk(chains: map<nat, Chain>, queue: seq<nat>, stage: Stage) {
    forall h :: h in queue <==> h in chains && chains[h].stage == stage
  }

  ghost predicate SectorsOk(chains: map<nat, Chain>, store: map<nat, Block>) {
    forall h :: h in chains ==> chains[h].sector in store
  }

  ghost predicate WantOk(w: Want, m: Mem, waiting: map<nat, nat>) {
    w.b < |m.flag| && w.b !in waiting && w.sector in m.store
  }

  /** `rest` is what is left of a chain in memory. */
  ghost predicate Linked(desc: seq<Desc>, rest: seq<nat>) {
    forall k :: 0 <= k < |rest| ==> rest[k] < |desc| && LinkOk(desc, rest, k)
  }

  ghost predicate LinkOk(desc: seq<Desc>, rest: seq<nat>, k: nat)
    requires k < |rest| && rest[k] < |desc|
  {
    if k + 1 < |rest| then desc[rest[k]].more && desc[rest[k]].next == rest[k + 1] else !desc[rest[k]].more
  }

  ghost predicate DrvOk(s: Sys) {
    match s.drv
    case Alloc(w, got) => |got| < 3 && WantOk(w, s.m, s.waiting)
    case Format(w, idx, n) =>
      && |idx| == 3 && n <= 5 && WantOk(w, s.m, s.waiting)
      && Written(s.m.desc, s.m.ops, s.m.info, idx[0], idx[1], idx[2], w, if n > 4 then 4 else n)
      && (n == 5 ==> |s.m.avail| == NUM && s.m.avail[RingSlot(s.m.availIdx)] == idx[0])
    case Handle => s.f.done != []
    case Freeing(i) => |s.f.rest| > 0 && s.f.rest[0] == i && Linked(s.m.desc, s.f.rest)
    case _ => true
  }

  ghost predicate DevOk(s: Sys) {
    s.dev.Returning? ==>
      && s.dev.h in s.f.chains && s.f.chains[s.dev.h].stage == Served
      && |s.m.used| == NUM && s.m.used[RingSlot(s.m.usedIdx)] == s.dev.h
  }

  ghost predicate DescInv(s: Sys) {
    Sizes(s.m) && RolesOk(s.m.free, s.f.role, s.f.chains) && HeldOk(s.f.role, HeldBy(s.drv, s.f))
  }

  ghost predicate ReqInv(s: Sys) {
    ChainsOk(s.m.desc, s.m.ops, s.m.info, s.f.chains) && SectorsOk(s.f.chains, s.m.store)
  }

  ghost predicate BufInv(s: Sys) {
    WaitersOk(|s.m.flag|, s.waiting, s.f.chains) && FlagsOk(s.m.flag, s.waiting, s.f.chains, Marked(s.drv))
  }

  ghost predicate RingInv(s: Sys) {
    && RingOk(s.m.avail, s.m.devIdx, s.m.availIdx, s.f.todo, s.f.taken) && QueueOk(s.f.chains, s.f.todo, Todo)
    && RingOk(s.m.used, s.m.drvIdx, s.m.usedIdx, s.f.done, s.f.seen) && QueueOk(s.f.chains, s.f.done, Done)
  }

  ghost predicate Inv(s: Sys) {
    DescInv(s) && ReqInv(s) && BufInv(s) && RingInv(s) && DrvOk(s) && DevOk(s)
  }

  /** An arbitrary depth at which `Inv` is kept folded. */
  const DEPTH: nat

  ghost predicate InvAt(s: Sys, depth: nat) { if depth == 0 then Inv(s) else InvAt(s, depth - 1) }

  ghost predicate Ok(s: Sys) { InvAt(s, DEPTH) }

  lemma {:induction false} UnfoldAt(s: Sys, depth: nat)
    ensures InvAt(s, depth) <==> Inv(s)
  {
    if depth > 0 {
      UnfoldAt(s, depth - 1);
    }
  }

  lemma Unfold(s: Sys)
    ensures Ok(s) <==> Inv(s)
  {
    UnfoldAt(s, DEPTH);
  }

  /** Proving the invariant from its parts, and each part from the invariant. */
  lemma Fold(s: Sys)
    requires DescInv(s) && ReqInv(s) && BufInv(s) && RingInv(s) && DrvOk(s) && DevOk(s)
    ensures Ok(s)
  {
    Unfold(s);
  }

  lemma Descs(s: Sys)
    requires Ok(s)
    ensures DescInv(s)
  {
    Unfold(s);
  }

  lemma Reqs(s: Sys)
    requires Ok(s)
    ensures ReqInv(s)
  {
    Unfold(s);
  }

  lemma Bufs(s: Sys)
    requires Ok(s)
    ensures BufInv(s)
  {
    Unfold(s);
  }

  lemma Rings(s: Sys)
    requires Ok(s)
    ensures RingInv(s)
  {
    Unfold(s);
  }

  lemma Places(s: Sys)
    requires Ok(s)
    ensures DrvOk(s) && DevOk(s)
  {
    Unfold(s);
  }

  // ---------------------------------------------------------------- steps

  datatype Step =
    // virtio_disk_rw: taking the lock, a turn of alloc3_desc's loops, a write of the request
    | Begin(w: Want) | AllocTurn | UndoTurn | Write
    // virtio_disk_intr: taking the lock, comparing the indices, handling a request
    | IntrBegin | IntrCheck | IntrTurn
    // virtio_disk_rw woken up with its buffer's flag cleared; a turn of free_chain's loop
    | Wake(b: nat) | FreeTurn
    // the device: taking a request, carrying it out, and the two writes that hand it back
    | Take | Serve(h: nat) | Return(h: nat) | Announce

  /** The first descriptor that is free, or NUM. */
  function FirstFree(free: seq<bool>, i: nat := 0): (r: nat)
    requires i <= |free|
    ensures i <= r <= |free| && (r < |free| ==> free[r]) && forall k :: i <= k < r ==> !free[k]
    decreases |free| - i
  {
    if i == |free| || free[i] then i else FirstFree(free, i + 1)
  }

  function Bump(idx: nat): nat { (idx + 1) % U16 }

  predicate Enabled(s: Sys, e: Step) {
    match e
    case Begin(w) => s.drv == Out && w.b < |s.m.flag| && w.b !in s.waiting && w.sector in s.m.store
    case AllocTurn => s.drv.Alloc?
    case UndoTurn => s.drv.Undo?
    case Write => s.drv.Format?
    case IntrBegin => s.drv == Out
    case IntrCheck => s.drv == Check
    case IntrTurn => s.drv == Handle
    case Wake(b) => s.drv == Out && b in s.waiting && b < |s.m.flag| && !s.m.flag[b]
    case FreeTurn => s.drv.Freeing?
    case Take => s.m.devIdx != s.m.availIdx
    case Serve(h) => h in s.f.chains && s.f.chains[h].stage == Busy
    case Return(h) => s.dev == Idle && h in s.f.chains && s.f.chains[h].stage == Served
    case Announce => s.dev.Returning?
  }

  ghost function AfterAlloc(s: Sys): Sys
    requires s.drv.Alloc? && |s.f.role| == |s.m.free|
  {
    var i := FirstFree(s.m.free);
    if i == |s.m.free| then s.(drv := Undo(s.drv.got))
    else
      var got := s.drv.got + [i];
      s.(m := s.m.(free := s.m.free[i := false]), f := s.f.(role := s.f.role[i := Held]),
         drv := if |got| == 3 then Format(s.drv.want, got, 0) else Alloc(s.drv.want, got))
  }

  /** free_desc. */
  ghost function Dropped(s: Sys, i: nat): Sys
    requires i < |s.m.free| && i < |s.m.desc| && i < |s.f.role|
  {
    s.(m := s.m.(desc := s.m.desc[i := ZERO], free := s.m.free[i := true]), f := s.f.(role := s.f.role[i := Free]))
  }

  ghost function AfterUndo(s: Sys): Sys
    requires s.drv.Undo?
    requires s.drv.got != [] ==> var i := s.drv.got[0]; i < |s.m.free| && i < |s.m.desc| && i < |s.f.role|
  {
    if s.drv.got == [] then s.(drv := Out) else Dropped(s, s.drv.got[0]).(drv := Undo(s.drv.got[1..]))
  }

  /** The writes before the request is announced. */
  ghost function AfterFormat(s: Sys): Sys
    requires s.drv.Format? && |s.drv.idx| == 3 && Sizes(s.m) && s.drv.n < 5
    requires s.drv.idx[0] < NUM && s.drv.idx[1] < NUM && s.drv.idx[2] < NUM && s.drv.want.b < |s.m.flag|
  {
    var m, w, h, d1, d2, n := s.m, s.drv.want, s.drv.idx[0], s.drv.idx[1], s.drv.idx[2], s.drv.n;
    var m' :=
      if n == 0 then m.(ops := m.ops[h := Req(w.write, w.sector)],
                        desc := m.desc[h := Desc(OpRef(h), 16, false, true, d1)])
      else if n == 1 then m.(desc := m.desc[d1 := Desc(DataRef(w.b), BSIZE, !w.write, true, d2)])
      else if n == 2 then m.(info := m.info[h := m.info[h].(status := 0xff)],
                             desc := m.desc[d2 := Desc(StatusRef(h), 1, true, false, 0)])
      else if n == 3 then m.(flag := m.flag[w.b := true], info := m.info[h := m.info[h].(b := w.b)])
      else m.(avail := m.avail[RingSlot(m.availIdx) := h]);
    s.(m := m', drv := Format(w, s.drv.idx, n + 1))
  }

  /** The index write, which makes the request the device's. */
  ghost function AfterPublish(s: Sys): Sys
    requires s.drv.Format? && |s.drv.idx| == 3 && |s.f.role| == NUM
    requires s.drv.idx[0] < NUM && s.drv.idx[1] < NUM && s.drv.idx[2] < NUM
  {
    var w, h, d1, d2 := s.drv.want, s.drv.idx[0], s.drv.idx[1], s.drv.idx[2];
    var x := Chain(d1, d2, w.b, w.write, w.sector, Todo);
    Sys(s.m.(availIdx := Bump(s.m.availIdx)), Out, s.dev, s.waiting[w.b := h],
        s.f.(chains := s.f.chains[h := x], todo := s.f.todo + [h],
             role := s.f.role[h := Part(h, 0)][d1 := Part(h, 1)][d2 := Part(h, 2)]))
  }

  ghost function Moved(f: Flight, h: nat, stage: Stage): Flight
    requires h in f.chains
  {
    f.(chains := f.chains[h := f.chains[h].(stage := stage)])
  }

  /** The interrupt handler clears the flag of the buffer on record for the request. */
  ghost function AfterIntr(s: Sys): Sys
    requires s.f.done != [] && s.f.done[0] in s.f.chains && Sizes(s.m)
  {
    var h := s.f.done[0];
    var b := s.f.chains[h].b;
    s.(m := s.m.(flag := if b < |s.m.flag| then s.m.flag[b := false] else s.m.flag, drvIdx := Bump(s.m.drvIdx)),
       f := Moved(s.f, h, Seen).(done := s.f.done[1..], seen := s.f.seen + 1), drv := Check)
  }

  ghost function AfterWake(s: Sys, b: nat): Sys
    requires b in s.waiting && s.waiting[b] in s.f.chains && |s.f.role| == |s.m.info| == NUM
    requires var h := s.waiting[b]; h < NUM && s.f.chains[h].d1 < NUM && s.f.chains[h].d2 < NUM
  {
    var h := s.waiting[b];
    var x := s.f.chains[h];
    Sys(s.m.(info := s.m.info[h := s.m.info[h].(b := -1)]), Freeing(h), s.dev, s.waiting - {b},
        s.f.(chains := s.f.chains - {h}, rest := [h, x.d1, x.d2],
             role := s.f.role[h := Held][x.d1 := Held][x.d2 := Held]))
  }

  ghost function AfterFree(s: Sys): Sys
    requires s.drv.Freeing? && |s.f.rest| > 0
    requires s.drv.i < |s.m.free| && s.drv.i < |s.m.desc| && s.drv.i < |s.f.role|
  {
    var d, t := s.m.desc[s.drv.i], Dropped(s, s.drv.i);
    t.(f := t.f.(rest := s.f.rest[1..]), drv := if d.more then Freeing(d.next) else Out)
  }

  ghost function AfterTake(s: Sys): Sys
    requires s.f.todo != [] && s.f.todo[0] in s.f.chains
  {
    s.(m := s.m.(devIdx := Bump(s.m.devIdx)),
       f := Moved(s.f, s.f.todo[0], Busy).(todo := s.f.todo[1..], taken := s.f.taken + 1))
  }

  /** The transfer that was asked for, and a status of 0. */
  ghost function AfterServe(s: Sys, h: nat): Sys
    requires h in s.f.chains && h < |s.m.info| && s.f.chains[h].b < |s.m.data| && s.f.chains[h].sector in s.m.store
  {
    var x := s.f.chains[h];
    var m := s.m.(info := s.m.info[h := s.m.info[h].(status := 0)]);
    s.(m := if x.write then m.(store := m.store[x.sector := m.data[x.b]])
       else m.(data := m.data[x.b := m.store[x.sector]]),
       f := Moved(s.f, h, Served))
  }

  ghost function AfterReturn(s: Sys, h: nat): Sys
    requires |s.m.used| == NUM
  {
    s.(m := s.m.(used := s.m.used[RingSlot(s.m.usedIdx) := h]), dev := Returning(h))
  }

  ghost function AfterAnnounce(s: Sys): Sys
    requires s.dev.Returning? && s.dev.h in s.f.chains
  {
    s.(m := s.m.(usedIdx := Bump(s.m.usedIdx)), f := Moved(s.f, s.dev.h, Done).(done := s.f.done + [s.dev.h]),
       dev := Idle)
  }

  // ---------------------------------------------------------------- descriptors

  lemma {:induction false} RolesHold(free: seq<bool>, role: seq<Role>, chains: map<nat, Chain>, i: nat)
    requires RolesOk(free, role, chains) && i < NUM && free[i]
    ensures RolesOk(free[i := false], role[i := Held], chains)
  {
    assert RoleOk(free[i], role[i], chains, i);
    var free', role' := free[i := false], role[i := Held];
    forall k | 0 <= k < NUM ensures RoleOk(free'[k], role'[k], chains, k) {
      assert RoleOk(free[k], role[k], chains, k);
    }
  }

  lemma {:induction false} RolesDrop(free: seq<bool>, role: seq<Role>, chains: map<nat, Chain>, i: nat)
    requires RolesOk(free, role, chains) && i < NUM && role[i] == Held
    ensures RolesOk(free[i := true], role[i := Free], chains) && !free[i]
  {
    var free', role' := free[i := true], role[i := Free];
    forall k | 0 <= k < NUM ensures RoleOk(free'[k], role'[k], chains, k) {
      assert RoleOk(free[k], role[k], chains, k);
    }
    assert RoleOk(free[i], role[i], chains, i);
  }

  lemma {:induction false} RolesLaunch(free: seq<bool>, role: seq<Role>, chains: map<nat, Chain>, h: nat, x: Chain)
    requires RolesOk(free, role, chains) && h < NUM && x.d1 < NUM && x.d2 < NUM && h != x.d1 && h != x.d2
             && x.d1 != x.d2
    requires role[h] == role[x.d1] == role[x.d2] == Held
    ensures h !in chains
    ensures RolesOk(free, role[h := Part(h, 0)][x.d1 := Part(h, 1)][x.d2 := Part(h, 2)], chains[h := x])
  {
    var role', chains' := role[h := Part(h, 0)][x.d1 := Part(h, 1)][x.d2 := Part(h, 2)], chains[h := x];
    assert h in chains ==> PartsOk(role, h, chains[h]);
    forall k | 0 <= k < NUM ensures RoleOk(free[k], role'[k], chains', k) {
      assert RoleOk(free[k], role[k], chains, k);
    }
    forall g | g in chains' ensures PartsOk(role', g, chains'[g]) {
      assert g != h ==> PartsOk(role, g, chains[g]);
    }
  }

  lemma {:induction false} RolesLand(free: seq<bool>, role: seq<Role>, chains: map<nat, Chain>, h: nat, x: Chain)
    requires RolesOk(free, role, chains) && h in chains && x == chains[h]
    ensures h < NUM && x.d1 < NUM && x.d2 < NUM && h != x.d1 && h != x.d2 && x.d1 != x.d2
    ensures RolesOk(free, role[h := Held][x.d1 := Held][x.d2 := Held], chains - {h})
  {
    assert PartsOk(role, h, x);
    var role', chains' := role[h := Held][x.d1 := Held][x.d2 := Held], chains - {h};
    forall k | 0 <= k < NUM ensures RoleOk(free[k], role'[k], chains', k) {
      assert RoleOk(free[k], role[k], chains, k);
    }
    forall g | g in chains' ensures PartsOk(role', g, chains'[g]) {
      assert PartsOk(role, g, chains[g]);
    }
  }

  lemma {:induction false} RolesMoved(free: seq<bool>, role: seq<Role>, chains: map<nat, Chain>, h: nat, stage: Stage)
    requires RolesOk(free, role, chains) && h in chains
    ensures RolesOk(free, role, chains[h := chains[h].(stage := stage)])
  {
    var chains' := chains[h := chains[h].(stage := stage)];
    forall k | 0 <= k < NUM ensures RoleOk(free[k], role[k], chains', k) {
      assert RoleOk(free[k], role[k], chains, k);
    }
    forall g | g in chains' ensures PartsOk(role, g, chains'[g]) {
      assert PartsOk(role, g, chains[g]);
    }
  }

  lemma {:induction false} HeldPush(role: seq<Role>, held: seq<nat>, i: nat)
    requires HeldOk(role, held) && i < |role| && role[i] != Held
    ensures HeldOk(role[i := Held], held + [i])
  {
    var role', held' := role[i := Held], held + [i];
    forall k | 0 <= k < |role'| && role'[k] == Held ensures k in held' {
      assert k != i ==> k in held;
    }
  }

  lemma {:induction false} HeldPop(role: seq<Role>, held: seq<nat>)
    requires HeldOk(role, held) && held != []
    ensures held[0] < |role| && role[held[0]] == Held && HeldOk(role[held[0] := Free], held[1..])
  {
    var role', held' := role[held[0] := Free], held[1..];
    forall k | 0 <= k < |role'| && role'[k] == Held ensures k in held' {
      assert k in held && held == [held[0]] + held';
    }
  }

  lemma {:induction false} HeldThree(role: seq<Role>, idx: seq<nat>, x: Role, y: Role, z: Role)
    requires HeldOk(role, idx) && |idx| == 3 && x != Held && y != Held && z != Held
    ensures idx[0] < |role| && idx[1] < |role| && idx[2] < |role|
    ensures idx[0] != idx[1] && idx[0] != idx[2] && idx[1] != idx[2]
    ensures role[idx[0]] == role[idx[1]] == role[idx[2]] == Held
    ensures HeldOk(role[idx[0] := x][idx[1] := y][idx[2] := z], [])
  {
    var role' := role[idx[0] := x][idx[1] := y][idx[2] := z];
    forall k | 0 <= k < |role'| ensures role'[k] != Held {
      assert role[k] == Held ==> k in idx;
    }
  }

  lemma {:induction false} HoldThree(role: seq<Role>, h: nat, d1: nat, d2: nat)
    requires HeldOk(role, []) && h < |role| && d1 < |role| && d2 < |role| && h != d1 && h != d2 && d1 != d2
    ensures HeldOk(role[h := Held][d1 := Held][d2 := Held], [h, d1, d2])
  {
    var role' := role[h := Held][d1 := Held][d2 := Held];
    forall k | 0 <= k < |role'| && role'[k] == Held ensures k in [h, d1, d2] {
      assert role[k] != Held;
    }
  }

  /** Writing descriptors that belong to no request disturbs none. */
  lemma {:induction false} ChainsFrame(
    desc: seq<Desc>, ops: seq<Req>, info: seq<Info>, desc': seq<Desc>, ops': seq<Req>,
                                       info': seq<Info>, free: seq<bool>, role: seq<Role>, chains: map<nat, Chain>)
    requires RolesOk(free, role, chains) && ChainsOk(desc, ops, info, chains)
    requires |desc| == |ops| == |info| == |desc'| == |ops'| == |info'| == NUM
    requires forall i :: 0 <= i < NUM && role[i].Part? ==>
               desc'[i] == desc[i] && ops'[i] == ops[i] && info'[i] == info[i]
    ensures ChainsOk(desc', ops', info', chains)
  {
    forall h | h in chains ensures ChainOk(desc', ops', info', h, chains[h]) {
      assert ChainOk(desc, ops, info, h, chains[h]) && PartsOk(role, h, chains[h]);
    }
  }

  lemma {:induction false} ChainsMoved(desc: seq<Desc>, ops: seq<Req>, info: seq<Info>, info': seq<Info>,
                                       chains: map<nat, Chain>, h: nat, stage: Stage)
    requires ChainsOk(desc, ops, info, chains) && h in chains && |info'| == |info| && h < |info|
    requires info' == info[h := info'[h]] && info'[h].b == info[h].b
             && (stage == Served || stage == Done ==> info'[h].status == 0)
    ensures ChainsOk(desc, ops, info', chains[h := chains[h].(stage := stage)])
  {
    var chains' := chains[h := chains[h].(stage := stage)];
    forall g | g in chains' ensures ChainOk(desc, ops, info', g, chains'[g]) {
      assert ChainOk(desc, ops, info, g, chains[g]);
    }
  }

  // ---------------------------------------------------------------- queues

  lemma {:induction false} QueueSame(chains: map<nat, Chain>, queue: seq<nat>, stage: Stage, h: nat, to: Stage)
    requires QueueOk(chains, queue, stage) && h in chains && chains[h].stage != stage && to != stage
    ensures QueueOk(chains[h := chains[h].(stage := to)], queue, stage)
  {
    var chains' := chains[h := chains[h].(stage := to)];
    forall k ensures k in queue <==> k in chains' && chains'[k].stage == stage {
      assert k in queue <==> k in chains && chains[k].stage == stage;
    }
  }

  lemma {:induction false} QueuePop(chains: map<nat, Chain>, queue: seq<nat>, stage: Stage, to: Stage)
    requires QueueOk(chains, queue, stage) && Distinct(queue) && queue != [] && to != stage
    ensures queue[0] in chains && chains[queue[0]].stage == stage
    ensures QueueOk(chains[queue[0] := chains[queue[0]].(stage := to)], queue[1..], stage)
  {
    var h := queue[0];
    assert h in queue;
    var chains' := chains[h := chains[h].(stage := to)];
    forall k ensures k in queue[1..] <==> k in chains' && chains'[k].stage == stage {
      assert k in queue <==> k in chains && chains[k].stage == stage;
      assert queue == [h] + queue[1..];
    }
  }

  lemma {:induction false} QueuePush(chains: map<nat, Chain>, queue: seq<nat>, stage: Stage, h: nat, x: Chain)
    requires QueueOk(chains, queue, stage) && x.stage == stage && (h in chains ==> chains[h].stage != stage)
    ensures h !in queue && QueueOk(chains[h := x], queue + [h], stage)
  {
    assert h in queue <==> h in chains && chains[h].stage == stage;
    forall k ensures k in queue + [h] <==> k in chains[h := x] && chains[h := x][k].stage == stage {
      assert k in queue <==> k in chains && chains[k].stage == stage;
    }
  }

  lemma {:induction false} QueueOther(chains: map<nat, Chain>, queue: seq<nat>, stage: Stage, h: nat, x: Chain)
    requires QueueOk(chains, queue, stage) && x.stage != stage && (h in chains ==> chains[h].stage != stage)
    ensures QueueOk(chains[h := x], queue, stage) && QueueOk(chains - {h}, queue, stage)
  {
    forall k ensures k in queue <==> k in chains[h := x] && chains[h := x][k].stage == stage {
      assert k in queue <==> k in chains && chains[k].stage == stage;
    }
    forall k ensures k in queue <==> k in chains - {h} && (chains - {h})[k].stage == stage {
      assert k in queue <==> k in chains && chains[k].stage == stage;
    }
  }

  /** The first descriptors of requests fit into a ring, with room for one more. */
  lemma {:induction false} QueueRoom(
    free: seq<bool>, role: seq<Role>, chains: map<nat, Chain>, queue: seq<nat>, stage: Stage, h: nat)
    requires RolesOk(free, role, chains) && QueueOk(chains, queue, stage) && Distinct(queue) && h < NUM && h !in queue
    ensures |queue| < NUM
  {
    forall i | 0 <= i < |queue| ensures queue[i] < NUM {
      assert queue[i] in queue;
      assert PartsOk(role, queue[i], chains[queue[i]]);
    }
    RoomLeft(queue, h);
  }

  /** What a ring's reader finds at its index. */
  lemma {:induction false} RingFront(ring: seq<nat>, first: nat, last: nat, queue: seq<nat>, start: nat)
    requires RingOk(ring, first, last, queue, start)
    ensures first == last <==> queue == []
    ensures queue != [] ==> ring[RingSlot(first)] == queue[0] && RingOk(ring, Bump(first), last, queue[1..], start + 1)
  {
    RingEmpty(start, |queue|);
    if queue != [] {
      SlotOfIndex(start, 0);
      NextIndex(start, 0);
      RingPop(ring, start, queue);
      assert start + |queue| == start + 1 + |queue[1..]|;
    }
  }

  /** Writing the slot behind the last entry leaves the entries alone, */
  lemma {:induction false} RingBack(ring: seq<nat>, first: nat, last: nat, queue: seq<nat>, start: nat, h: nat)
    requires RingOk(ring, first, last, queue, start) && |queue| < NUM
    ensures RingOk(ring[RingSlot(last) := h], first, last, queue, start)
    ensures forall k :: 0 <= k < |queue| ==> Slot(start, k) != RingSlot(last)
  {
    SlotOfIndex(start, |queue|);
    forall k | 0 <= k < |queue| ensures Slot(start, k) != RingSlot(last) {
      SlotsDiffer(start + k, start + |queue|);
    }
  }

  /** and advancing the index makes it an entry. */
  lemma {:induction false} RingAnnounce(ring: seq<nat>, first: nat, last: nat, queue: seq<nat>, start: nat, h: nat)
    requires RingOk(ring, first, last, queue, start) && |queue| < NUM && h !in queue && ring[RingSlot(last)] == h
    ensures RingOk(ring, first, Bump(last), queue + [h], start)
  {
    SlotOfIndex(start, |queue|);
    NextIndex(start, |queue|);
    RingPush(ring, start, queue, h);
    assert ring[Slot(start, |queue|) := h] == ring;
  }

  // ---------------------------------------------------------------- buffers

  lemma {:induction false} WaitersMoved(
    nbuf: nat, waiting: map<nat, nat>, chains: map<nat, Chain>, h: nat, stage: Stage)
    requires WaitersOk(nbuf, waiting, chains) && h in chains
    ensures WaitersOk(nbuf, waiting, chains[h := chains[h].(stage := stage)])
  {
  }

  lemma {:induction false} FlagsMoved(
    flag: seq<bool>, waiting: map<nat, nat>, chains: map<nat, Chain>, marked: int, h: nat, stage: Stage)
    requires FlagsOk(flag, waiting, chains, marked) && h in chains && chains[h].stage != Seen && stage != Seen
    ensures FlagsOk(flag, waiting, chains[h := chains[h].(stage := stage)], marked)
  {
    var chains' := chains[h := chains[h].(stage := stage)];
    forall b | 0 <= b < |flag| ensures flag[b] <==> Pending(waiting, chains', b) || b == marked {
      assert Pending(waiting, chains', b) <==> Pending(waiting, chains, b);
    }
  }

  /** The flag of exactly one buffer is cleared. */
  lemma {:induction false} FlagsSeen(flag: seq<bool>, waiting: map<nat, nat>, chains: map<nat, Chain>, h: nat)
    requires WaitersOk(|flag|, waiting, chains) && FlagsOk(flag, waiting, chains, -1) && h in chains
    ensures chains[h].b < |flag|
    ensures FlagsOk(flag[chains[h].b := false], waiting, chains[h := chains[h].(stage := Seen)], -1)
  {
    var chains' := chains[h := chains[h].(stage := Seen)];
    forall b | 0 <= b < |flag| && b != chains[h].b
      ensures Pending(waiting, chains', b) <==> Pending(waiting, chains, b)
    {
      assert b in waiting ==> waiting[b] != h;
    }
  }

  // ---------------------------------------------------------------- every step keeps the invariant

  /** A free descriptor is nobody's. */
  lemma {:induction false} FreeIsFree(free: seq<bool>, role: seq<Role>, chains: map<nat, Chain>, i: nat)
    requires RolesOk(free, role, chains) && i < NUM && free[i]
    ensures role[i] == Free
  {
    assert RoleOk(free[i], role[i], chains, i);
  }

  lemma {:induction false} BeginOk(s: Sys, w: Want)
    requires Ok(s) && Enabled(s, Begin(w))
    ensures Ok(s.(drv := Alloc(w, [])))
  {
    Unfold(s);
    Unfold(s.(drv := Alloc(w, [])));
  }

  lemma {:induction false} AllocDescs(s: Sys)
    requires Ok(s) && s.drv.Alloc?
    ensures |s.f.role| == |s.m.free| == NUM && DescInv(AfterAlloc(s))
  {
    Unfold(s);
    var i := FirstFree(s.m.free);
    if i < NUM {
      FreeIsFree(s.m.free, s.f.role, s.f.chains, i);
      RolesHold(s.m.free, s.f.role, s.f.chains, i);
      HeldPush(s.f.role, s.drv.got, i);
    }
  }

  lemma {:induction false} AllocDrv(s: Sys)
    requires Ok(s) && s.drv.Alloc? && |s.f.role| == |s.m.free| == NUM && DescInv(AfterAlloc(s))
    ensures DrvOk(AfterAlloc(s))
  {
    Unfold(s);
    var s' := AfterAlloc(s);
    if s'.drv.Format? {
      HeldThree(s'.f.role, s'.drv.idx, Free, Free, Free);
    }
  }

  /** Steps that concern descriptors without a request change nothing about requests. */
  lemma {:induction false} SameRequests(s: Sys, s': Sys)
    requires Ok(s) && s'.f.chains == s.f.chains && s'.f.todo == s.f.todo && s'.f.done == s.f.done
             && s'.waiting == s.waiting
    requires s'.f.taken == s.f.taken && s'.f.seen == s.f.seen && s'.dev == s.dev && Marked(s'.drv) == Marked(s.drv)
    requires s'.m == s.m.(free := s'.m.free, desc := s'.m.desc)
    ensures BufInv(s') && RingInv(s') && DevOk(s') && (s'.m.desc == s.m.desc ==> ReqInv(s'))
  {
    Unfold(s);
  }

  lemma {:induction false} AllocOk(s: Sys)
    requires Ok(s) && s.drv.Alloc?
    ensures |s.f.role| == |s.m.free| == NUM && Ok(AfterAlloc(s))
  {
    AllocDescs(s);
    AllocDrv(s);
    SameRequests(s, AfterAlloc(s));
    Unfold(AfterAlloc(s));
  }

  /** free_desc leaves the requests in flight alone. */
  lemma {:induction false} DroppedParts(m: Mem, f: Flight, i: nat)
    requires Sizes(m) && RolesOk(m.free, f.role, f.chains) && ChainsOk(m.desc, m.ops, m.info, f.chains) && i < NUM
             && f.role[i] == Held
    ensures RolesOk(m.free[i := true], f.role[i := Free], f.chains) && !m.free[i]
    ensures ChainsOk(m.desc[i := ZERO], m.ops, m.info, f.chains)
  {
    RolesDrop(m.free, f.role, f.chains, i);
    ChainsFrame(m.desc, m.ops, m.info, m.desc[i := ZERO], m.ops, m.info, m.free, f.role, f.chains);
  }

  lemma {:induction false} UndoDescs(s: Sys)
    requires Ok(s) && s.drv.Undo?
    ensures s.drv.got != [] ==> var i := s.drv.got[0];
                                i < |s.m.free| && i < |s.m.desc| && i < |s.f.role| && !s.m.free[i]
    ensures DescInv(AfterUndo(s)) && ReqInv(AfterUndo(s))
  {
    Unfold(s);
    if s.drv.got != [] {
      HeldPop(s.f.role, s.drv.got);
      DroppedParts(s.m, s.f, s.drv.got[0]);
    }
  }

  lemma {:induction false} UndoOk(s: Sys)
    requires Ok(s) && s.drv.Undo?
    ensures s.drv.got != [] ==> var i := s.drv.got[0];
                                i < |s.m.free| && i < |s.m.desc| && i < |s.f.role| && !s.m.free[i]
    ensures Ok(AfterUndo(s))
  {
    UndoDescs(s);
    SameRequests(s, AfterUndo(s));
    Unfold(AfterUndo(s));
  }

  /** What is known while a request is being written. */
  lemma {:induction false} FormatFacts(s: Sys)
    requires Ok(s) && s.drv.Format?
    ensures |s.drv.idx| == 3 && s.drv.n <= 5 && Sizes(s.m) && |s.f.role| == NUM
    ensures s.drv.idx[0] < NUM && s.drv.idx[1] < NUM && s.drv.idx[2] < NUM && s.drv.want.b < |s.m.flag|
    ensures s.drv.idx[0] != s.drv.idx[1] && s.drv.idx[0] != s.drv.idx[2] && s.drv.idx[1] != s.drv.idx[2]
    ensures s.f.role[s.drv.idx[0]] == s.f.role[s.drv.idx[1]] == s.f.role[s.drv.idx[2]] == Held
  {
    Unfold(s);
    HeldThree(s.f.role, s.drv.idx, Free, Free, Free);
  }

  /** Only descriptors the driver holds are written. */
  lemma {:induction false} FormatChains(s: Sys)
    requires Ok(s) && s.drv.Format? && s.drv.n < 4
    requires |s.drv.idx| == 3 && Sizes(s.m) && s.drv.idx[0] < NUM && s.drv.idx[1] < NUM && s.drv.idx[2] < NUM
             && s.drv.want.b < |s.m.flag|
    ensures var m' := AfterFormat(s).m; ChainsOk(m'.desc, m'.ops, m'.info, s.f.chains)
  {
    FormatFacts(s);
    var m' := AfterFormat(s).m;
    assert forall i :: 0 <= i < NUM && s.f.role[i].Part? ==>
        m'.desc[i] == s.m.desc[i] && m'.ops[i] == s.m.ops[i] && m'.info[i] == s.m.info[i];
    Unfold(s);
    ChainsFrame(s.m.desc, s.m.ops, s.m.info, m'.desc, m'.ops, m'.info, s.m.free, s.f.role, s.f.chains);
  }

  lemma {:induction false} FormatWritten(s: Sys)
    requires Ok(s) && s.drv.Format? && s.drv.n < 4
    requires |s.drv.idx| == 3 && Sizes(s.m) && s.drv.idx[0] < NUM && s.drv.idx[1] < NUM && s.drv.idx[2] < NUM
             && s.drv.want.b < |s.m.flag|
    ensures var m' := AfterFormat(s).m;
            Written(m'.desc, m'.ops, m'.info, s.drv.idx[0], s.drv.idx[1], s.drv.idx[2], s.drv.want, s.drv.n + 1)
  {
    FormatFacts(s);
    Unfold(s);
  }

  lemma {:induction false} FlagsMarked(flag: seq<bool>, waiting: map<nat, nat>, chains: map<nat, Chain>, b: nat)
    requires FlagsOk(flag, waiting, chains, -1) && b < |flag|
    ensures FlagsOk(flag[b := true], waiting, chains, b)
  {
    var flag' := flag[b := true];
    forall c | 0 <= c < |flag'| ensures flag'[c] <==> Pending(waiting, chains, c) || c == b {
      assert flag[c] <==> Pending(waiting, chains, c) || c == -1;
    }
  }

  lemma {:induction false} FormatOk(s: Sys)
    requires Ok(s) && s.drv.Format? && s.drv.n < 4
    requires |s.drv.idx| == 3 && Sizes(s.m) && s.drv.idx[0] < NUM && s.drv.idx[1] < NUM && s.drv.idx[2] < NUM
             && s.drv.want.b < |s.m.flag|
    ensures Ok(AfterFormat(s))
  {
    FormatWritten(s);
    FormatChains(s);
    Unfold(s);
    if s.drv.n == 3 {
      FlagsMarked(s.m.flag, s.waiting, s.f.chains, s.drv.want.b);
    }
    Unfold(AfterFormat(s));
  }

  lemma {:induction false} NotQueued(s: Sys, h: nat)
    requires Inv(s) && h < NUM && s.f.role[h] == Held
    ensures h !in s.f.chains && h !in s.f.todo && |s.f.todo| < NUM
  {
    assert h in s.f.chains ==> PartsOk(s.f.role, h, s.f.chains[h]);
    assert h in s.f.todo ==> h in s.f.chains;
    QueueRoom(s.m.free, s.f.role, s.f.chains, s.f.todo, Todo, h);
  }

  /** The slot that is written is not one the device has yet to read. */
  lemma {:induction false} SlotOk(s: Sys)
    requires Ok(s) && s.drv.Format? && s.drv.n == 4
    requires |s.drv.idx| == 3 && Sizes(s.m) && s.drv.idx[0] < NUM && s.drv.idx[1] < NUM && s.drv.idx[2] < NUM
             && s.drv.want.b < |s.m.flag|
    ensures Ok(AfterFormat(s))
  {
    FormatFacts(s);
    Unfold(s);
    NotQueued(s, s.drv.idx[0]);
    RingBack(s.m.avail, s.m.devIdx, s.m.availIdx, s.f.todo, s.f.taken, s.drv.idx[0]);
    Unfold(AfterFormat(s));
  }

  lemma {:induction false} WaitersAdd(nbuf: nat, waiting: map<nat, nat>, chains: map<nat, Chain>, h: nat, x: Chain)
    requires WaitersOk(nbuf, waiting, chains) && h !in chains && x.b !in waiting && x.b < nbuf
    ensures WaitersOk(nbuf, waiting[x.b := h], chains[h := x])
  {
  }

  lemma {:induction false} FlagsAdd(flag: seq<bool>, waiting: map<nat, nat>, chains: map<nat, Chain>, h: nat, x: Chain)
    requires FlagsOk(flag, waiting, chains, x.b) && WaitersOk(|flag|, waiting, chains) && h !in chains
             && x.b !in waiting && x.stage == Todo
    ensures FlagsOk(flag, waiting[x.b := h], chains[h := x], -1)
  {
    var waiting', chains' := waiting[x.b := h], chains[h := x];
    forall b | 0 <= b < |flag| ensures flag[b] <==> Pending(waiting', chains', b) || b == -1 {
      assert b in waiting ==> waiting[b] in chains;
      assert flag[b] <==> Pending(waiting, chains, b) || b == x.b;
    }
  }

  lemma {:induction false} ChainsAdd(
    desc: seq<Desc>, ops: seq<Req>, info: seq<Info>, chains: map<nat, Chain>, h: nat, x: Chain)
    requires ChainsOk(desc, ops, info, chains) && ChainOk(desc, ops, info, h, x)
    ensures ChainsOk(desc, ops, info, chains[h := x])
  {
  }

  lemma {:induction false} PublishQueues(s: Sys, h: nat, x: Chain)
    requires Ok(s) && Sizes(s.m) && h < NUM && |s.f.role| == NUM && s.f.role[h] == Held && x.stage == Todo
    requires s.m.avail[RingSlot(s.m.availIdx)] == h
    ensures RingOk(s.m.avail, s.m.devIdx, Bump(s.m.availIdx), s.f.todo + [h], s.f.taken)
    ensures RingOk(s.m.used, s.m.drvIdx, s.m.usedIdx, s.f.done, s.f.seen)
    ensures QueueOk(s.f.chains[h := x], s.f.todo + [h], Todo) && QueueOk(s.f.chains[h := x], s.f.done, Done)
  {
    Unfold(s);
    NotQueued(s, h);
    RingAnnounce(s.m.avail, s.m.devIdx, s.m.availIdx, s.f.todo, s.f.taken, h);
    QueuePush(s.f.chains, s.f.todo, Todo, h, x);
    QueueOther(s.f.chains, s.f.done, Done, h, x);
  }

  lemma {:induction false} PublishDescs(s: Sys, h: nat, x: Chain)
    requires Ok(s) && s.drv.Format? && s.drv.idx == [h, x.d1, x.d2]
    ensures Sizes(s.m) && |s.f.role| == NUM && h < NUM && x.d1 < NUM && x.d2 < NUM && h !in s.f.chains
    ensures var role := s.f.role[h := Part(h, 0)][x.d1 := Part(h, 1)][x.d2 := Part(h, 2)];
            RolesOk(s.m.free, role, s.f.chains[h := x]) && HeldOk(role, [])
  {
    Unfold(s);
    HeldThree(s.f.role, s.drv.idx, Part(h, 0), Part(h, 1), Part(h, 2));
    RolesLaunch(s.m.free, s.f.role, s.f.chains, h, x);
  }

  lemma {:induction false} PublishReqs(s: Sys, h: nat, x: Chain)
    requires Ok(s) && s.drv == Format(Want(x.b, x.write, x.sector), [h, x.d1, x.d2], 5) && h !in s.f.chains
             && x.stage == Todo
    ensures ChainsOk(s.m.desc, s.m.ops, s.m.info, s.f.chains[h := x]) && SectorsOk(s.f.chains[h := x], s.m.store)
    ensures WaitersOk(|s.m.flag|, s.waiting[x.b := h], s.f.chains[h := x])
    ensures FlagsOk(s.m.flag, s.waiting[x.b := h], s.f.chains[h := x], -1)
    ensures |s.m.avail| == NUM && s.m.avail[RingSlot(s.m.availIdx)] == h
  {
    Unfold(s);
    ChainsAdd(s.m.desc, s.m.ops, s.m.info, s.f.chains, h, x);
    WaitersAdd(|s.m.flag|, s.waiting, s.f.chains, h, x);
    FlagsAdd(s.m.flag, s.waiting, s.f.chains, h, x);
  }

  /** Adding a request leaves the one that the device is handing back alone. */
  lemma {:induction false} PublishDev(s: Sys, s': Sys, h: nat, x: Chain)
    requires Ok(s) && h !in s.f.chains && s'.f.chains == s.f.chains[h := x] && s'.dev == s.dev
    requires s'.m.used == s.m.used && s'.m.usedIdx == s.m.usedIdx
    ensures DevOk(s')
  {
    Unfold(s);
  }

  lemma {:induction false} PublishOk(s: Sys)
    requires Ok(s) && s.drv.Format? && s.drv.n == 5
    requires |s.drv.idx| == 3 && |s.f.role| == NUM && s.drv.idx[0] < NUM && s.drv.idx[1] < NUM && s.drv.idx[2] < NUM
    ensures Ok(AfterPublish(s))
  {
    FormatFacts(s);
    var w, h := s.drv.want, s.drv.idx[0];
    var x := Chain(s.drv.idx[1], s.drv.idx[2], w.b, w.write, w.sector, Todo);
    assert s.drv.idx == [h, x.d1, x.d2];
    PublishDescs(s, h, x);
    PublishReqs(s, h, x);
    PublishQueues(s, h, x);
    PublishDev(s, AfterPublish(s), h, x);
    Unfold(AfterPublish(s));
  }

  /** A request moves on without leaving flight: what is left to prove about the rest. */
  ghost predicate Moves(s: Sys, s': Sys, h: nat, to: Stage) {
    && h in s.f.chains && s'.f.chains == Moved(s.f, h, to).chains && s'.f.role == s.f.role && s'.waiting == s.waiting
    && s'.m.free == s.m.free && s'.m.desc == s.m.desc && s'.m.ops == s.m.ops && Sizes(s'.m) && Sizes(s.m) && h < NUM
    && s'.m.info == s.m.info[h := s'.m.info[h]] && s'.m.info[h].b == s.m.info[h].b
    && (to == Served || to == Done ==> s'.m.info[h].status == 0)
    && s'.m.store.Keys == s.m.store.Keys && HeldBy(s'.drv, s'.f) == HeldBy(s.drv, s.f) && |s'.m.flag| == |s.m.flag|
  }

  lemma {:induction false} MoveDescs(s: Sys, s': Sys, h: nat, to: Stage)
    requires Ok(s) && Moves(s, s', h, to)
    ensures DescInv(s')
  {
    Descs(s);
    RolesMoved(s.m.free, s.f.role, s.f.chains, h, to);
  }

  lemma {:induction false} MoveReqs(s: Sys, s': Sys, h: nat, to: Stage)
    requires Ok(s) && Moves(s, s', h, to)
    ensures ReqInv(s')
  {
    Reqs(s);
    ChainsMoved(s.m.desc, s.m.ops, s.m.info, s'.m.info, s.f.chains, h, to);
  }

  lemma {:induction false} MoveWaiters(s: Sys, s': Sys, h: nat, to: Stage)
    requires Ok(s) && Moves(s, s', h, to)
    ensures WaitersOk(|s'.m.flag|, s'.waiting, s'.f.chains)
  {
    Bufs(s);
    WaitersMoved(|s.m.flag|, s.waiting, s.f.chains, h, to);
  }

  lemma {:induction false} MoveOk(s: Sys, s': Sys, h: nat, to: Stage)
    requires Ok(s) && Moves(s, s', h, to)
    ensures DescInv(s') && ReqInv(s') && WaitersOk(|s'.m.flag|, s'.waiting, s'.f.chains)
  {
    MoveDescs(s, s', h, to);
    MoveReqs(s, s', h, to);
    MoveWaiters(s, s', h, to);
  }

  lemma {:induction false} DeviceFlags(s: Sys, h: nat, to: Stage)
    requires Ok(s) && h in s.f.chains && s.f.chains[h].stage != Seen && to != Seen
    ensures FlagsOk(s.m.flag, s.waiting, Moved(s.f, h, to).chains, Marked(s.drv))
  {
    Bufs(s);
    FlagsMoved(s.m.flag, s.waiting, s.f.chains, Marked(s.drv), h, to);
  }

  /** The driver's work in progress does not depend on requests in flight. */
  lemma {:induction false} DeviceDrv(s: Sys, s': Sys, h: nat)
    requires Ok(s) && h in s.f.chains && s'.drv == s.drv && s'.waiting == s.waiting && s'.f.rest == s.f.rest
    requires s'.m.flag == s.m.flag && s'.m.desc == s.m.desc && s'.m.ops == s.m.ops && s'.m.store.Keys == s.m.store.Keys
    requires s'.m.avail == s.m.avail && s'.m.availIdx == s.m.availIdx && s.f.done <= s'.f.done
    requires |s'.m.info| == |s.m.info| && forall i :: 0 <= i < |s.m.info| && i != h ==> s'.m.info[i] == s.m.info[i]
    ensures DrvOk(s')
  {
    if s.drv.Format? {
      FormatFacts(s);
      NotHeld(s, h);
    }
    Places(s);
  }

  lemma {:induction false} NotHeld(s: Sys, h: nat)
    requires Ok(s) && h in s.f.chains
    ensures h < |s.f.role| && s.f.role[h] != Held
  {
    Descs(s);
    assert PartsOk(s.f.role, h, s.f.chains[h]);
  }

  /** What is known about a request in flight. */
  lemma {:induction false} Request(s: Sys, h: nat)
    requires Ok(s) && h in s.f.chains
    ensures Sizes(s.m) && |s.f.role| == NUM && ChainOk(s.m.desc, s.m.ops, s.m.info, h, s.f.chains[h])
    ensures h < NUM && s.f.chains[h].d1 < NUM && s.f.chains[h].d2 < NUM
    ensures s.f.chains[h].b < |s.m.flag| == |s.m.data| && s.f.chains[h].sector in s.m.store
    ensures s.f.chains[h].b in s.waiting && s.waiting[s.f.chains[h].b] == h
    ensures s.m.flag[s.f.chains[h].b] <==> s.f.chains[h].stage != Seen || s.f.chains[h].b == Marked(s.drv)
  {
    Unfold(s);
    assert PartsOk(s.f.role, h, s.f.chains[h]);
    var b := s.f.chains[h].b;
    assert s.m.flag[b] <==> Pending(s.waiting, s.f.chains, b) || b == Marked(s.drv);
  }

  /** What the device finds in the available ring. */
  lemma {:induction false} NextTodo(s: Sys)
    requires Ok(s)
    ensures |s.m.avail| == NUM && (s.m.devIdx == s.m.availIdx <==> s.f.todo == [])
    ensures s.f.todo != [] ==> s.m.avail[RingSlot(s.m.devIdx)] == s.f.todo[0] && s.f.todo[0] in s.f.chains
    ensures s.f.todo != [] ==> s.f.chains[s.f.todo[0]].stage == Todo
  {
    Rings(s);
    RingFront(s.m.avail, s.m.devIdx, s.m.availIdx, s.f.todo, s.f.taken);
    if s.f.todo != [] {
      QueuePop(s.f.chains, s.f.todo, Todo, Busy);
    }
  }

  lemma {:induction false} TakeRings(s: Sys)
    requires Ok(s) && s.f.todo != [] && s.f.todo[0] in s.f.chains
    ensures RingInv(AfterTake(s))
  {
    Rings(s);
    RingFront(s.m.avail, s.m.devIdx, s.m.availIdx, s.f.todo, s.f.taken);
    QueuePop(s.f.chains, s.f.todo, Todo, Busy);
    QueueSame(s.f.chains, s.f.done, Done, s.f.todo[0], Busy);
  }

  /** A request other than the one being handed back moves on. */
  lemma {:induction false} OtherDev(s: Sys, s': Sys, h: nat, to: Stage)
    requires Ok(s) && h in s.f.chains && s.f.chains[h].stage != Served && s'.f.chains == Moved(s.f, h, to).chains
             && s'.dev == s.dev
    requires s'.m.used == s.m.used && s'.m.usedIdx == s.m.usedIdx
    ensures DevOk(s')
  {
    Places(s);
  }

  lemma {:induction false} TakeOk(s: Sys)
    requires Ok(s) && s.f.todo != [] && s.f.todo[0] in s.f.chains
    ensures Ok(AfterTake(s))
  {
    var h, s' := s.f.todo[0], AfterTake(s);
    NextTodo(s);
    Request(s, h);
    TakeRings(s);
    MoveOk(s, s', h, Busy);
    OtherDev(s, s', h, Busy);
    DeviceFlags(s, h, Busy);
    DeviceDrv(s, s', h);
    Fold(s');
  }

  lemma {:induction false} ServeRings(s: Sys, h: nat)
    requires Ok(s) && h in s.f.chains && s.f.chains[h].stage == Busy
    requires h < |s.m.info| && s.f.chains[h].b < |s.m.data| && s.f.chains[h].sector in s.m.store
    ensures RingInv(AfterServe(s, h))
  {
    Rings(s);
    QueueSame(s.f.chains, s.f.todo, Todo, h, Served);
    QueueSame(s.f.chains, s.f.done, Done, h, Served);
  }

  lemma {:induction false} ServeMoves(s: Sys, h: nat)
    requires Sizes(s.m) && h in s.f.chains && h < NUM && s.f.chains[h].b < |s.m.data|
             && s.f.chains[h].sector in s.m.store
    ensures Moves(s, AfterServe(s, h), h, Served)
    ensures var m' := AfterServe(s, h).m; m' == s.m.(info := m'.info, data := m'.data, store := m'.store)
    ensures forall i :: 0 <= i < NUM && i != h ==> AfterServe(s, h).m.info[i] == s.m.info[i]
  {
    var x := s.f.chains[h];
    assert s.m.store[x.sector := s.m.data[x.b]].Keys == s.m.store.Keys;
  }

  lemma {:induction false} ServeOk(s: Sys, h: nat)
    requires Ok(s) && h in s.f.chains && s.f.chains[h].stage == Busy
    ensures h < |s.m.info| && s.f.chains[h].b < |s.m.data| && s.f.chains[h].sector in s.m.store && Ok(AfterServe(s, h))
  {
    Request(s, h);
    var s' := AfterServe(s, h);
    ServeRings(s, h);
    ServeMoves(s, h);
    MoveOk(s, s', h, Served);
    OtherDev(s, s', h, Served);
    DeviceFlags(s, h, Served);
    DeviceDrv(s, s', h);
    Fold(s');
  }

  /** The device's slot write does not touch entries the driver has yet to read. */
  lemma {:induction false} ReturnRing(s: Sys, h: nat)
    requires Ok(s) && h in s.f.chains && s.f.chains[h].stage == Served
    ensures |s.m.used| == NUM && h !in s.f.done && |s.f.done| < NUM
    ensures RingOk(s.m.used[RingSlot(s.m.usedIdx) := h], s.m.drvIdx, s.m.usedIdx, s.f.done, s.f.seen)
  {
    Descs(s);
    Rings(s);
    assert PartsOk(s.f.role, h, s.f.chains[h]);
    assert h !in s.f.done;
    QueueRoom(s.m.free, s.f.role, s.f.chains, s.f.done, Done, h);
    RingBack(s.m.used, s.m.drvIdx, s.m.usedIdx, s.f.done, s.f.seen, h);
  }

  /** Nothing but the used ring and the device's place in handing back a request differ. */
  lemma {:induction false} SameDriver(s: Sys, s': Sys)
    requires Ok(s) && s' == s.(dev := s'.dev, m := s.m.(used := s'.m.used)) && |s'.m.used| == NUM
    ensures DescInv(s') && ReqInv(s') && BufInv(s') && DrvOk(s')
  {
    Unfold(s);
  }

  lemma {:induction false} ReturnRings(s: Sys, h: nat)
    requires Ok(s) && h in s.f.chains && s.f.chains[h].stage == Served && |s.m.used| == NUM
    requires RingOk(s.m.used[RingSlot(s.m.usedIdx) := h], s.m.drvIdx, s.m.usedIdx, s.f.done, s.f.seen)
    ensures RingInv(AfterReturn(s, h)) && DevOk(AfterReturn(s, h))
  {
    Rings(s);
  }

  lemma {:induction false} ReturnOk(s: Sys, h: nat)
    requires Ok(s) && Enabled(s, Return(h))
    ensures |s.m.used| == NUM && Ok(AfterReturn(s, h))
  {
    ReturnRing(s, h);
    ReturnRings(s, h);
    SameDriver(s, AfterReturn(s, h));
    Fold(AfterReturn(s, h));
  }

  lemma {:induction false} AnnounceRings(s: Sys)
    requires Ok(s) && s.dev.Returning?
    ensures s.dev.h in s.f.chains && s.f.chains[s.dev.h].stage == Served && RingInv(AfterAnnounce(s))
  {
    var h := s.dev.h;
    Places(s);
    Rings(s);
    ReturnRing(s, h);
    RingAnnounce(s.m.used, s.m.drvIdx, s.m.usedIdx, s.f.done, s.f.seen, h);
    QueuePush(s.f.chains, s.f.done, Done, h, s.f.chains[h].(stage := Done));
    QueueSame(s.f.chains, s.f.todo, Todo, h, Done);
  }

  lemma {:induction false} AnnounceOk(s: Sys)
    requires Ok(s) && s.dev.Returning?
    ensures s.dev.h in s.f.chains && Ok(AfterAnnounce(s))
  {
    AnnounceRings(s);
    var h, s' := s.dev.h, AfterAnnounce(s);
    Request(s, h);
    MoveOk(s, s', h, Done);
    DeviceFlags(s, h, Done);
    DeviceDrv(s, s', h);
    Fold(s');
  }

  /** What the driver finds in the used ring. */
  lemma {:induction false} NextDone(s: Sys)
    requires Ok(s)
    ensures |s.m.used| == NUM && (s.m.drvIdx == s.m.usedIdx <==> s.f.done == [])
    ensures s.f.done != [] ==> s.m.used[RingSlot(s.m.drvIdx)] == s.f.done[0] && s.f.done[0] in s.f.chains
    ensures s.f.done != [] ==> s.f.chains[s.f.done[0]].stage == Done
    ensures s.drv == Handle ==> s.f.done != []
  {
    Places(s);
    Rings(s);
    RingFront(s.m.used, s.m.drvIdx, s.m.usedIdx, s.f.done, s.f.seen);
    if s.f.done != [] {
      QueuePop(s.f.chains, s.f.done, Done, Seen);
    }
  }

  lemma {:induction false} IntrRings(s: Sys)
    requires Ok(s) && s.f.done != [] && s.f.done[0] in s.f.chains && Sizes(s.m)
    ensures RingInv(AfterIntr(s))
  {
    Rings(s);
    RingFront(s.m.used, s.m.drvIdx, s.m.usedIdx, s.f.done, s.f.seen);
    QueuePop(s.f.chains, s.f.done, Done, Seen);
    QueueSame(s.f.chains, s.f.todo, Todo, s.f.done[0], Seen);
  }

  lemma {:induction false} IntrFlags(s: Sys)
    requires Ok(s) && s.drv == Handle && s.f.done != [] && s.f.done[0] in s.f.chains && Sizes(s.m)
    ensures FlagsOk(AfterIntr(s).m.flag, s.waiting, AfterIntr(s).f.chains, -1)
  {
    Bufs(s);
    FlagsSeen(s.m.flag, s.waiting, s.f.chains, s.f.done[0]);
  }

  lemma {:induction false} IntrOk(s: Sys)
    requires Ok(s) && s.drv == Handle
    ensures s.f.done != [] && s.f.done[0] in s.f.chains && Sizes(s.m) && Ok(AfterIntr(s))
  {
    NextDone(s);
    var h := s.f.done[0];
    Request(s, h);
    var s' := AfterIntr(s);
    IntrRings(s);
    IntrFlags(s);
    OtherDev(s, s', h, Seen);
    MoveOk(s, s', h, Seen);
    Fold(s');
  }

  /** The driver goes from one place to another without holding descriptors. */
  lemma {:induction false} GoOk(s: Sys, drv: Drv)
    requires Ok(s) && HeldBy(s.drv, s.f) == [] && Marked(s.drv) == -1
    requires drv == Out || drv == Check || (drv == Handle && s.f.done != [])
    ensures Ok(s.(drv := drv))
  {
    Unfold(s);
    Unfold(s.(drv := drv));
  }

  lemma {:induction false} WaitersLand(nbuf: nat, waiting: map<nat, nat>, chains: map<nat, Chain>, h: nat)
    requires WaitersOk(nbuf, waiting, chains) && h in chains
    ensures WaitersOk(nbuf, waiting - {chains[h].b}, chains - {h})
  {
  }

  lemma {:induction false} FlagsLand(flag: seq<bool>, waiting: map<nat, nat>, chains: map<nat, Chain>, h: nat)
    requires WaitersOk(|flag|, waiting, chains) && FlagsOk(flag, waiting, chains, -1) && h in chains
             && chains[h].stage == Seen
    ensures FlagsOk(flag, waiting - {chains[h].b}, chains - {h}, -1)
  {
    var waiting', chains' := waiting - {chains[h].b}, chains - {h};
    forall b | 0 <= b < |flag| ensures Pending(waiting', chains', b) <==> Pending(waiting, chains, b) {
      assert b in waiting && waiting[b] == h ==> b == chains[h].b;
    }
    forall b | 0 <= b < |flag| ensures flag[b] <==> Pending(waiting', chains', b) || b == -1 {
      assert flag[b] <==> Pending(waiting, chains, b) || b == -1;
    }
  }

  /** A cleared flag means that the interrupt handler has seen the request. */
  lemma {:induction false} WakeFacts(s: Sys, b: nat)
    requires Ok(s) && Enabled(s, Wake(b))
    ensures s.waiting[b] in s.f.chains && |s.f.role| == |s.m.info| == NUM
    ensures var h := s.waiting[b]; h < NUM && s.f.chains[h].d1 < NUM && s.f.chains[h].d2 < NUM && s.f.chains[h].b == b
    ensures s.f.chains[s.waiting[b]].stage == Seen
  {
    Bufs(s);
    assert s.m.flag[b] <==> Pending(s.waiting, s.f.chains, b) || b == Marked(s.drv);
    Request(s, s.waiting[b]);
  }

  lemma {:induction false} WakeRoles(s: Sys, h: nat)
    requires Ok(s) && s.drv == Out && h in s.f.chains
    ensures var x := s.f.chains[h];
            && |s.f.role| == NUM && h < NUM && x.d1 < NUM && x.d2 < NUM
            && RolesOk(s.m.free, s.f.role[h := Held][x.d1 := Held][x.d2 := Held], s.f.chains - {h})
            && HeldOk(s.f.role[h := Held][x.d1 := Held][x.d2 := Held], [h, x.d1, x.d2])
  {
    Descs(s);
    RolesLand(s.m.free, s.f.role, s.f.chains, h, s.f.chains[h]);
    HoldThree(s.f.role, h, s.f.chains[h].d1, s.f.chains[h].d2);
  }

  lemma {:induction false} WakeDescs(s: Sys, b: nat)
    requires Ok(s) && Enabled(s, Wake(b)) && s.waiting[b] in s.f.chains && |s.f.role| == |s.m.info| == NUM
    requires var h := s.waiting[b]; h < NUM && s.f.chains[h].d1 < NUM && s.f.chains[h].d2 < NUM
    ensures DescInv(AfterWake(s, b))
  {
    Request(s, s.waiting[b]);
    WakeRoles(s, s.waiting[b]);
  }

  lemma {:induction false} WakeReqs(s: Sys, b: nat)
    requires Ok(s) && Enabled(s, Wake(b)) && s.waiting[b] in s.f.chains && |s.f.role| == |s.m.info| == NUM
    requires var h := s.waiting[b]; h < NUM && s.f.chains[h].d1 < NUM && s.f.chains[h].d2 < NUM
    ensures ReqInv(AfterWake(s, b)) && DrvOk(AfterWake(s, b))
  {
    Reqs(s);
    var h, s' := s.waiting[b], AfterWake(s, b);
    assert ChainOk(s.m.desc, s.m.ops, s.m.info, h, s.f.chains[h]);
    forall g | g in s'.f.chains ensures ChainOk(s'.m.desc, s'.m.ops, s'.m.info, g, s'.f.chains[g]) {
      assert ChainOk(s.m.desc, s.m.ops, s.m.info, g, s.f.chains[g]);
    }
  }

  lemma {:induction false} WakeBufs(s: Sys, b: nat)
    requires Ok(s) && Enabled(s, Wake(b)) && s.waiting[b] in s.f.chains && |s.f.role| == |s.m.info| == NUM
    requires var h := s.waiting[b]; h < NUM && s.f.chains[h].d1 < NUM && s.f.chains[h].d2 < NUM
    requires s.f.chains[s.waiting[b]].b == b && s.f.chains[s.waiting[b]].stage == Seen
    ensures BufInv(AfterWake(s, b))
  {
    Bufs(s);
    WaitersLand(|s.m.flag|, s.waiting, s.f.chains, s.waiting[b]);
    FlagsLand(s.m.flag, s.waiting, s.f.chains, s.waiting[b]);
  }

  lemma {:induction false} WakeRings(s: Sys, b: nat)
    requires Ok(s) && Enabled(s, Wake(b)) && s.waiting[b] in s.f.chains && |s.f.role| == |s.m.info| == NUM
    requires var h := s.waiting[b]; h < NUM && s.f.chains[h].d1 < NUM && s.f.chains[h].d2 < NUM
    requires s.f.chains[s.waiting[b]].stage == Seen
    ensures RingInv(AfterWake(s, b)) && DevOk(AfterWake(s, b))
  {
    Rings(s);
    Places(s);
    var h := s.waiting[b];
    QueueOther(s.f.chains, s.f.todo, Todo, h, s.f.chains[h]);
    QueueOther(s.f.chains, s.f.done, Done, h, s.f.chains[h]);
  }

  lemma {:induction false} WakeOk(s: Sys, b: nat)
    requires Ok(s) && Enabled(s, Wake(b))
    ensures s.waiting[b] in s.f.chains && |s.f.role| == |s.m.info| == NUM
    ensures var h := s.waiting[b]; h < NUM && s.f.chains[h].d1 < NUM && s.f.chains[h].d2 < NUM
    ensures Ok(AfterWake(s, b))
  {
    WakeFacts(s, b);
    WakeDescs(s, b);
    WakeReqs(s, b);
    WakeBufs(s, b);
    WakeRings(s, b);
    Fold(AfterWake(s, b));
  }

  /** What free_chain finds at a descriptor. */
  lemma {:induction false} FreeingFacts(s: Sys)
    requires Ok(s) && s.drv.Freeing?
    ensures |s.f.rest| > 0 && s.f.rest[0] == s.drv.i && Sizes(s.m) && |s.f.role| == NUM && s.drv.i < NUM
            && !s.m.free[s.drv.i]
    ensures s.m.desc[s.drv.i].more <==> |s.f.rest| > 1
    ensures |s.f.rest| > 1 ==> s.m.desc[s.drv.i].next == s.f.rest[1]
  {
    Places(s);
    Descs(s);
    HeldPop(s.f.role, s.f.rest);
    RolesDrop(s.m.free, s.f.role, s.f.chains, s.drv.i);
    assert LinkOk(s.m.desc, s.f.rest, 0);
  }

  lemma {:induction false} FreeDescs(s: Sys)
    requires Ok(s) && s.drv.Freeing? && |s.f.rest| > 0 && s.f.rest[0] == s.drv.i && Sizes(s.m) && |s.f.role| == NUM
             && s.drv.i < NUM
    requires s.m.desc[s.drv.i].more <==> |s.f.rest| > 1
    ensures DescInv(AfterFree(s)) && ReqInv(AfterFree(s))
  {
    Descs(s);
    Reqs(s);
    HeldPop(s.f.role, s.f.rest);
    DroppedParts(s.m, s.f, s.drv.i);
    assert |s.f.rest| == 1 ==> s.f.rest[1..] == [];
  }

  /** The rest of the chain is untouched by freeing its first descriptor. */
  lemma {:induction false} FreeDrv(s: Sys)
    requires Ok(s) && s.drv.Freeing? && |s.f.rest| > 0 && s.f.rest[0] == s.drv.i && Sizes(s.m) && |s.f.role| == NUM
             && s.drv.i < NUM
    requires (s.m.desc[s.drv.i].more <==> |s.f.rest| > 1) && (|s.f.rest| > 1 ==> s.m.desc[s.drv.i].next == s.f.rest[1])
    ensures DrvOk(AfterFree(s))
  {
    Places(s);
    Descs(s);
    var rest, desc := s.f.rest[1..], s.m.desc[s.drv.i := ZERO];
    forall k | 0 <= k < |rest| ensures rest[k] < |desc| && LinkOk(desc, rest, k) {
      assert LinkOk(s.m.desc, s.f.rest, k + 1) && s.f.rest[k + 1] != s.f.rest[0];
    }
  }

  lemma {:induction false} FreeOk(s: Sys)
    requires Ok(s) && s.drv.Freeing?
    ensures |s.f.rest| > 0 && s.drv.i < |s.m.free| && s.drv.i < |s.m.desc| && s.drv.i < |s.f.role| && Ok(AfterFree(s))
  {
    FreeingFacts(s);
    FreeDescs(s);
    FreeDrv(s);
    SameRequests(s, AfterFree(s));
    Fold(AfterFree(s));
  }

  // ---------------------------------------------------------------- runs

  ghost function After(s: Sys, e: Step): (s': Sys)
    requires Ok(s) && Enabled(s, e)
    ensures Ok(s')
  {
    match e
    case Begin(w) => BeginOk(s, w); s.(drv := Alloc(w, []))
    case AllocTurn => AllocOk(s); AfterAlloc(s)
    case UndoTurn => UndoOk(s); AfterUndo(s)
    case Write =>
      FormatFacts(s);
      if s.drv.n < 4 then FormatOk(s); AfterFormat(s)
      else if s.drv.n == 4 then SlotOk(s); AfterFormat(s)
      else PublishOk(s); AfterPublish(s)
    case IntrBegin => GoOk(s, Check); s.(drv := Check)
    case IntrCheck =>
      NextDone(s);
      var drv := if s.m.drvIdx != s.m.usedIdx then Handle else Out;
      GoOk(s, drv);
      s.(drv := drv)
    case IntrTurn => IntrOk(s); AfterIntr(s)
    case Wake(b) => WakeOk(s, b); AfterWake(s, b)
    case FreeTurn => FreeOk(s); AfterFree(s)
    case Take => NextTodo(s); TakeOk(s); AfterTake(s)
    case Serve(h) => ServeOk(s, h); AfterServe(s, h)
    case Return(h) => ReturnOk(s, h); AfterReturn(s, h)
    case Announce => AnnounceOk(s); AfterAnnounce(s)
  }

  /** One step; outside the invariant, which no run leaves, nothing happens. */
  ghost function Do(s: Sys, e: Step): Sys
    requires Enabled(s, e)
  {
    if Ok(s) then After(s, e) else s
  }

  /** After virtio_disk_init: an empty queue. */
  ghost predicate Start(s: Sys) {
    && Sizes(s.m) && s.drv == Out && s.dev == Idle && s.waiting == map[]
    && (forall i :: 0 <= i < NUM ==> s.m.free[i]) && (forall b :: 0 <= b < |s.m.flag| ==> !s.m.flag[b])
    && s.m.availIdx == s.m.devIdx == s.m.usedIdx == s.m.drvIdx == 0
    && s.f == Flight(map[], seq(NUM, _ => Free), [], [], 0, 0, [])
  }

  lemma {:induction false} StartOk(s: Sys)
    requires Start(s)
    ensures Ok(s)
  {
    Unfold(s);
  }

  /** A run: any interleaving of the driver's steps and the device's. */
  ghost predicate Path(states: seq<Sys>, steps: seq<Step>) {
    && |states| == |steps| + 1 && Start(states[0])
    && forall k :: 0 <= k < |steps| ==> Enabled(states[k], steps[k]) && states[k + 1] == Do(states[k], steps[k])
  }

  lemma {:induction false} RunsOk(states: seq<Sys>, steps: seq<Step>, k: nat)
    requires Path(states, steps) && k < |states|
    ensures Ok(states[k])
  {
    if k == 0 {
      StartOk(states[0]);
    } else {
      RunsOk(states, steps, k - 1);
    }
  }

  /** What a descriptor can be in use for. */
  datatype Use = Unused | ByDriver | InChain(h: nat, n: nat)

  ghost predicate IsUse(s: Sys, i: nat, u: Use)
    requires i < |s.m.free|
  {
    match u
    case Unused => s.m.free[i]
    case ByDriver => i in HeldBy(s.drv, s.f)
    case InChain(h, n) => n < 3 && h in s.f.chains && Nth(h, s.f.chains[h], n) == i
  }

  lemma {:induction false} UseIsRole(s: Sys, i: nat, u: Use)
    requires Ok(s) && i < NUM && |s.m.free| == NUM && IsUse(s, i, u)
    ensures |s.f.role| == NUM
            && s.f.role[i] == match u case Unused => Free case ByDriver => Held case InChain(h, n) => Part(h, n)
  {
    Descs(s);
    assert RoleOk(s.m.free[i], s.f.role[i], s.f.chains, i);
    if u.InChain? {
      assert PartsOk(s.f.role, u.h, s.f.chains[u.h]);
    }
  }

  /** In every state of every run, each descriptor is free, or held by the one driver step in
      progress, or one of the three of one request in flight: never two of these. */
  lemma {:induction false} DescriptorsPartitioned(states: seq<Sys>, steps: seq<Step>, k: nat, i: nat)
    requires Path(states, steps) && k < |states| && i < NUM
    ensures |states[k].m.free| == NUM
            && exists u :: IsUse(states[k], i, u) && forall v :: IsUse(states[k], i, v) ==> v == u
  {
    RunsOk(states, steps, k);
    var s := states[k];
    Descs(s);
    var u := RoleUse(s, i);
    forall v | IsUse(s, i, v) ensures v == u {
      UseIsRole(s, i, u);
      UseIsRole(s, i, v);
    }
  }

  lemma {:induction false} RoleUse(s: Sys, i: nat) returns (u: Use)
    requires Ok(s) && DescInv(s) && i < NUM
    ensures IsUse(s, i, u)
  {
    assert RoleOk(s.m.free[i], s.f.role[i], s.f.chains, i);
    match s.f.role[i]
    case Free => u := Unused;
    case Held => u := ByDriver;
    case Part(h, n) => u := InChain(h, if n == 0 then 0 else if n == 1 then 1 else 2);
  }

  /** No entry of a ring is overwritten before its reader has consumed it, whatever the 16-bit
      indices are: every step leaves each request that is waiting to be read in its slot. */
  lemma {:induction false} NoSlotReuse(states: seq<Sys>, steps: seq<Step>, k: nat)
    requires Path(states, steps) && k < |steps|
    ensures |states[k + 1].m.avail| == |states[k + 1].m.used| == NUM
    ensures forall j :: 0 <= j < |states[k].f.todo| ==>
              states[k + 1].m.avail[Slot(states[k].f.taken, j)] == states[k].f.todo[j]
    ensures forall j :: 0 <= j < |states[k].f.done| ==>
              states[k + 1].m.used[Slot(states[k].f.seen, j)] == states[k].f.done[j]
  {
    RunsOk(states, steps, k);
    RunsOk(states, steps, k + 1);
    var s, s', e := states[k], states[k + 1], steps[k];
    Rings(s);
    Descs(s');
    if e == Write && s.drv.n == 4 {
      FormatFacts(s);
      SlotKept(s);
    } else if e.Return? {
      ReturnRing(s, e.h);
    } else {
      RingsSame(s, e);
    }
  }

  lemma {:induction false} SlotKept(s: Sys)
    requires Ok(s) && s.drv.Format? && s.drv.n == 4 && |s.drv.idx| == 3 && Sizes(s.m) && s.drv.idx[0] < NUM
             && |s.f.role| == NUM
    requires s.f.role[s.drv.idx[0]] == Held
    ensures RingOk(s.m.avail[RingSlot(s.m.availIdx) := s.drv.idx[0]], s.m.devIdx, s.m.availIdx, s.f.todo, s.f.taken)
  {
    Unfold(s);
    NotQueued(s, s.drv.idx[0]);
    RingBack(s.m.avail, s.m.devIdx, s.m.availIdx, s.f.todo, s.f.taken, s.drv.idx[0]);
  }

  lemma {:induction false} RingsSame(s: Sys, e: Step)
    requires Ok(s) && Enabled(s, e) && !(e == Write && s.drv.n == 4) && !e.Return?
    ensures After(s, e).m.avail == s.m.avail && After(s, e).m.used == s.m.used
  {
  }

  /** The step announces the request with first descriptor `h`, for buffer `b`. */
  ghost predicate Publishes(s: Sys, e: Step, h: nat, b: nat) {
    e == Write && s.drv.Format? && s.drv.n == 5 && |s.drv.idx| == 3 && s.drv.idx[0] == h && s.drv.want.b == b
  }

  /** A request in flight after a step was in flight, for the same buffer, or is announced. */
  lemma {:induction false} FlightStep(s: Sys, e: Step, h: nat)
    requires Ok(s) && Enabled(s, e) && h in After(s, e).f.chains
    ensures h in s.f.chains || Publishes(s, e, h, After(s, e).f.chains[h].b)
    ensures h in s.f.chains ==> After(s, e).f.chains[h].b == s.f.chains[h].b
    ensures After(s, e).f.chains[h].stage == Done ==>
              h in s.f.chains && (s.f.chains[h].stage == Done || (e == Announce && s.dev == Returning(h)))
    ensures After(s, e).f.chains[h].stage == Seen ==>
              h in s.f.chains && (s.f.chains[h].stage == Seen || s.f.chains[h].stage == Done)
  {
    if e == Write {
      FormatFacts(s);
      NotHeldChain(s, s.drv.idx[0]);
    } else if e == IntrTurn {
      NextDone(s);
    } else if e == Take {
      NextTodo(s);
    } else if e == Announce {
      AnnounceRings(s);
    }
  }

  lemma {:induction false} NotHeldChain(s: Sys, h: nat)
    requires Ok(s) && h < |s.f.role| && s.f.role[h] == Held
    ensures h !in s.f.chains
  {
    if h in s.f.chains {
      NotHeld(s, h);
    }
  }

  /** Request `h` is in flight, for buffer `b`, in the states after `i` up to `k`. */
  ghost predicate InFlight(states: seq<Sys>, i: nat, k: nat, h: nat, b: nat)
    requires k < |states|
  {
    forall n :: i < n <= k ==> h in states[n].f.chains && states[n].f.chains[h].b == b
  }

  /** Every request in flight was announced, and has been in flight since. */
  lemma {:induction false} Announced(states: seq<Sys>, steps: seq<Step>, k: nat, h: nat) returns (i: nat)
    requires Path(states, steps) && k < |states| && h in states[k].f.chains
    ensures i < k && Publishes(states[i], steps[i], h, states[k].f.chains[h].b)
    ensures InFlight(states, i, k, h, states[k].f.chains[h].b)
  {
    if k == 0 {
      assert false;
    }
    RunsOk(states, steps, k - 1);
    FlightStep(states[k - 1], steps[k - 1], h);
    if h in states[k - 1].f.chains {
      i := Announced(states, steps, k - 1, h);
    } else {
      i := k - 1;
    }
  }

  /** A request that is done was handed back by the device while in flight. */
  lemma {:induction false} HandedBack(states: seq<Sys>, steps: seq<Step>, i: nat, k: nat, h: nat) returns (j: nat)
    requires Path(states, steps) && i < k < |states| && h in states[k].f.chains
             && states[k].f.chains[h].stage in {Done, Seen}
    requires InFlight(states, i, k, h, states[k].f.chains[h].b)
             && Publishes(states[i], steps[i], h, states[k].f.chains[h].b)
    ensures i < j < k && steps[j] == Announce && states[j].dev == Returning(h)
    decreases k
  {
    RunsOk(states, steps, k - 1);
    FlightStep(states[k - 1], steps[k - 1], h);
    if k - 1 == i {
      FreshlyAnnounced(states[i], steps[i], h, states[k].f.chains[h].b);
    } else if states[k - 1].f.chains[h].stage in {Done, Seen} {
      j := HandedBack(states, steps, i, k - 1, h);
    } else {
      j := k - 1;
    }
  }

  lemma {:induction false} FreshlyAnnounced(s: Sys, e: Step, h: nat, b: nat)
    requires Ok(s) && Enabled(s, e) && Publishes(s, e, h, b)
    ensures h in After(s, e).f.chains && After(s, e).f.chains[h].stage == Todo
  {
    FormatFacts(s);
  }

  /** Only the interrupt handler clears flags: that of the request it takes out of the used ring. */
  lemma {:induction false} FlagStep(s: Sys, e: Step)
    requires Ok(s) && Enabled(s, e)
    ensures |After(s, e).m.flag| == |s.m.flag|
    ensures e != IntrTurn ==> forall c :: 0 <= c < |s.m.flag| && s.m.flag[c] ==> After(s, e).m.flag[c]
    ensures e == IntrTurn ==>
              && s.f.done != [] && s.f.done[0] in s.f.chains && s.f.chains[s.f.done[0]].stage == Done
              && var b := s.f.chains[s.f.done[0]].b;
                 b < |s.m.flag| && s.m.flag[b] && After(s, e).m.flag == s.m.flag[b := false]
  {
    if e == IntrTurn {
      NextDone(s);
      Request(s, s.f.done[0]);
    } else if e == Write {
      FormatFacts(s);
    }
  }

  /** Each completion clears the flag of exactly the submitting buffer: when a step of a run
      clears the flag of `b`, it clears no other, and there was a request for `b` which was
      announced at an earlier step `i`, was handed back by the device at a step `j` after that,
      and has been in flight for `b` ever since it was announced. */
  lemma {:induction false} CompletionClearsSubmitter(states: seq<Sys>, steps: seq<Step>, k: nat, b: nat)
    returns (h: nat, i: nat, j: nat)
    requires Path(states, steps) && k < |steps| && b < |states[k].m.flag| == |states[k + 1].m.flag|
    requires states[k].m.flag[b] && !states[k + 1].m.flag[b]
    ensures steps[k] == IntrTurn && states[k + 1].m.flag == states[k].m.flag[b := false]
    ensures i < j < k && Publishes(states[i], steps[i], h, b) && steps[j] == Announce && states[j].dev == Returning(h)
    ensures InFlight(states, i, k, h, b)
  {
    RunsOk(states, steps, k);
    FlagStep(states[k], steps[k]);
    h := states[k].f.done[0];
    i := Announced(states, steps, k, h);
    j := HandedBack(states, steps, i, k, h);
  }

  // ---------------------------------------------------------------- the code

  /** The driver's code and the device, one step per method. */
  class Disk {
    var m: Mem
    var drv: Drv
    var dev: Dev
    var waiting: map<nat, nat>
    ghost var f: Flight

    ghost function S(): Sys
      reads this
    {
      Sys(m, drv, dev, waiting, f)
    }

    /** The object has taken step `e`. */
    twostate predicate Took(e: Step)
      reads this
    {
      old(Ok(S()) && Enabled(S(), e)) && S() == old(After(S(), e))
    }

    /** virtio_disk_init, as far as the queue is concerned. */
    constructor (nbuf: nat, blocks: map<nat, Block>)
      ensures Start(S()) && m.store == blocks && |m.flag| == nbuf
    {
      var zeros := seq(NUM, _ => 0);
      m := Mem(seq(NUM, _ => true), seq(NUM, _ => ZERO), seq(NUM, _ => Info(-1, 0)), seq(NUM, _ => Req(false, 0)),
               zeros, 0, zeros, 0, 0, 0, seq(nbuf, _ => false), seq(nbuf, _ => []), blocks);
      drv, dev, waiting := Out, Idle, map[];
      f := Flight(map[], seq(NUM, _ => Free), [], [], 0, 0, []);
    }

    /** alloc_desc. */
    method AllocDesc() returns (i: nat)
      requires |m.free| == NUM
      modifies `m
      ensures i == FirstFree(old(m).free) && m == if i == NUM then old(m) else old(m).(free := old(m).free[i := false])
    {
      i := 0;
      while i < NUM && !m.free[i]
        invariant i <= NUM && forall k :: 0 <= k < i ==> !m.free[k]
      {
        i := i + 1;
      }
      if i < NUM {
        m := m.(free := m.free[i := false]);
      }
    }

    /** free_desc. */
    method FreeDesc(i: nat)
      requires |m.desc| == |m.free| == NUM && i < NUM && !m.free[i]
      modifies `m
      ensures m == old(m).(desc := old(m).desc[i := ZERO], free := old(m).free[i := true])
    {
      assert !m.free[i]; // panic("free_desc 2")
      m := m.(desc := m.desc[i := ZERO]);
      m := m.(free := m.free[i := true]);
    }

    /** A turn of alloc3_desc's loop. */
    method AllocStep()
      requires Ok(S()) && drv.Alloc?
      modifies this
      ensures Took(AllocTurn)
    {
      AllocOk(S());
      var i := AllocDesc();
      if i == NUM {
        drv := Undo(drv.got);
      } else {
        f := f.(role := f.role[i := Held]);
        var got := drv.got + [i];
        drv := if |got| == 3 then Format(drv.want, got, 0) else Alloc(drv.want, got);
      }
    }

    /** alloc3_desc giving back one descriptor, or the end of that: the caller sleeps. */
    method UndoStep()
      requires Ok(S()) && drv.Undo?
      modifies this
      ensures Took(UndoTurn)
    {
      UndoDescs(S());
      Descs(S());
      if drv.got == [] {
        drv := Out;
      } else {
        var i := drv.got[0];
        FreeDesc(i);
        f := f.(role := f.role[i := Free]);
        drv := Undo(drv.got[1..]);
      }
    }

    /** The writes of virtio_disk_rw, in their order. */
    method WriteStep()
      requires Ok(S()) && drv.Format?
      modifies this
      ensures Took(Write)
    {
      FormatFacts(S());
      var w, n := drv.want, drv.n;
      var h, d1, d2 := drv.idx[0], drv.idx[1], drv.idx[2];
      if n == 0 {
        m := m.(ops := m.ops[h := Req(w.write, w.sector)]);
        m := m.(desc := m.desc[h := Desc(OpRef(h), 16, false, true, d1)]);
      } else if n == 1 {
        m := m.(desc := m.desc[d1 := Desc(DataRef(w.b), BSIZE, !w.write, true, d2)]);
      } else if n == 2 {
        m := m.(info := m.info[h := m.info[h].(status := 0xff)]);
        m := m.(desc := m.desc[d2 := Desc(StatusRef(h), 1, true, false, 0)]);
      } else if n == 3 {
        m := m.(flag := m.flag[w.b := true]);
        m := m.(info := m.info[h := m.info[h].(b := w.b)]);
      } else if n == 4 {
        m := m.(avail := m.avail[RingSlot(m.availIdx) := h]);
      }
      if n < 5 {
        drv := Format(w, drv.idx, n + 1);
      } else {
        m := m.(availIdx := (m.availIdx + 1) % U16);
        waiting := waiting[w.b := h];
        drv := Out;
        f := f.(chains := f.chains[h := Chain(d1, d2, w.b, w.write, w.sector, Todo)], todo := f.todo + [h],
                role := f.role[h := Part(h, 0)][d1 := Part(h, 1)][d2 := Part(h, 2)]);
      }
    }

    /** virtio_disk_intr comparing the indices. */
    method CheckStep()
      requires Ok(S()) && drv == Check
      modifies this
      ensures Took(IntrCheck)
    {
      drv := if m.drvIdx != m.usedIdx then Handle else Out;
    }

    /** virtio_disk_intr handling one entry of the used ring. */
    method IntrStep()
      requires Ok(S()) && drv == Handle
      modifies this
      ensures Took(IntrTurn)
    {
      NextDone(S());
      var id := m.used[RingSlot(m.drvIdx)];
      Request(S(), id);
      assert m.info[id].status == 0; // panic("virtio_disk_intr status")
      var b := m.info[id].b;
      m := m.(flag := m.flag[b := false]);
      m := m.(drvIdx := (m.drvIdx + 1) % U16);
      f := Moved(f, id, Seen).(done := f.done[1..], seen := f.seen + 1);
      drv := Check;
    }

    /** virtio_disk_rw awake again, and its buffer's flag is clear. */
    method WakeStep(b: nat)
      requires Ok(S()) && drv == Out && b in waiting && b < |m.flag| && !m.flag[b]
      modifies this
      ensures Took(Wake(b))
    {
      WakeFacts(S(), b);
      var h := waiting[b];
      ghost var x := f.chains[h];
      m := m.(info := m.info[h := m.info[h].(b := -1)]);
      waiting := waiting - {b};
      drv := Freeing(h);
      f := f.(chains := f.chains - {h}, rest := [h, x.d1, x.d2], role := f.role[h := Held][x.d1 := Held][x.d2 := Held]);
    }

    /** A turn of free_chain's loop. */
    method FreeStep()
      requires Ok(S()) && drv.Freeing?
      modifies this
      ensures Took(FreeTurn)
    {
      FreeingFacts(S());
      var i := drv.i;
      var more, next := m.desc[i].more, m.desc[i].next;
      FreeDesc(i);
      f := f.(role := f.role[i := Free], rest := f.rest[1..]);
      drv := if more then Freeing(next) else Out;
    }

    /** The device takes the next request. */
    method TakeStep() returns (h: nat)
      requires Ok(S()) && m.devIdx != m.availIdx
      modifies this
      ensures Took(Take)
    {
      NextTodo(S());
      h := m.avail[RingSlot(m.devIdx)];
      m := m.(devIdx := (m.devIdx + 1) % U16);
      f := Moved(f, h, Busy).(todo := f.todo[1..], taken := f.taken + 1);
    }

    /** The device carries out a request it has taken, finding what to do by following the
        descriptors. */
    method ServeStep(h: nat)
      requires Ok(S()) && h in f.chains && f.chains[h].stage == Busy
      modifies this
      ensures Took(Serve(h))
    {
      Request(S(), h);
      var req := m.ops[m.desc[h].addr.i];
      var d1 := m.desc[h].next;
      var b := m.desc[d1].addr.b;
      var status := m.desc[m.desc[d1].next].addr.i;
      if req.write {
        m := m.(store := m.store[req.sector := m.data[b]]);
      } else {
        m := m.(data := m.data[b := m.store[req.sector]]);
      }
      m := m.(info := m.info[status := m.info[status].(status := 0)]);
      f := Moved(f, h, Served);
    }
  }
}
