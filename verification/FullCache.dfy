/** A log that fills the buffer cache. The source has as many buffers as the log has blocks
    (NBUF and LOGBLOCKS in kernel/param.h), so three operations that use exactly their budgets
    leave every buffer pinned, and the commit finds no buffer for the first log block. */
module FullCache {
  import opened Params
  import opened LogDisk
  import opened CachedLog
  import B = BufferedLog
  import C = Bcache
  import P = LogProtocol

  /** Nobody holds a buffer or waits for one. */
  ghost predicate Calm(s: Sys) {
    Shaped(s) && forall b :: 0 <= b < C.NBUF ==> s.holder[b] == Nobody && s.waiting[b] == {}
  }

  /** One step of a run. */
  lemma {:induction false} Take(l: Layout, d: Disk, s: Sys, step: Step) returns (t: Sys)
    requires Reached(l, d, s, DEPTH) && Shaped(s) && Enabled(l, s, step)
    ensures P.Shape(l, s.work.log) && t == Do(l, s, step) && Reached(l, d, t, DEPTH) && Shaped(t)
  {
    B.ReachedShape(l, d, s);
    t := Do(l, s, step);
    Append(l, d, s, step, t);
  }

  // ---------------------------------------------------------------- bread and brelse

  /** A buffer for the block: the one that has it, or a free one. */
  lemma {:induction false} SomeBuffer(l: Layout, d: Disk, s: Sys, w: C.Where) returns (b: nat)
    requires Reached(l, d, s, DEPTH) && Calm(s) && B.Pending(s.work) < C.NBUF && w in s.m.k.disk
    ensures b < C.NBUF && if w in s.m.k.at then b == s.m.k.at[w] else s.m.bufs[b].refcnt == 0
  {
    ReachedInv(l, d, s);
    if w in s.m.k.at {
      assert C.BlockOk(s.m.bufs, s.m.k, w);
      b := s.m.k.at[w];
    } else {
      assert B.Hold(s) == map[];
      if B.AllUsed(s) {
        B.UsedUp(l, s);
      }
      b :| b < C.NBUF && s.m.bufs[b].refcnt == 0;
    }
  }

  lemma {:induction false} SameDisk(l: Layout, s: Sys, who: Who, w: C.Where, b: nat)
    requires Shaped(s) && Enabled(l, s, Get(who, w, b))
    ensures Got(s, who, w, b).work == s.work
    ensures var t := Got(s, who, w, b); t.holder == s.holder && t.waiting == s.waiting[b := s.waiting[b] + {who}]
  {
  }

  /** bread: the buffer is held, valid and has the block. */
  lemma {:induction false} Read(l: Layout, d: Disk, s: Sys, who: Who, blockno: nat) returns (t: Sys, b: nat)
    requires Reached(l, d, s, DEPTH) && Calm(s) && B.Pending(s.work) < C.NBUF && blockno < l.size && who != Nobody
    ensures Reached(l, d, t, DEPTH) && Shaped(t) && t.work == s.work && b < C.NBUF
    ensures t.holder == s.holder[b := who] && t.waiting == s.waiting && C.Addr(t.m.bufs[b]) == At(blockno)
    ensures t.changed == s.changed && !t.changed[b]
  {
    B.BlockThere(l, d, s, blockno);
    b := SomeBuffer(l, d, s, At(blockno));
    var u := Take(l, d, s, Get(who, At(blockno), b));
    SameDisk(l, s, who, At(blockno), b);
    GotBlock(l, d, s, who, blockno, b);
    t := Take(l, d, u, Lock(who, b));
    assert s.waiting[b] + {who} - {who} == s.waiting[b];
    NothingChanged(l, d, s, b);
  }

  lemma {:induction false} GotBlock(l: Layout, d: Disk, s: Sys, who: Who, blockno: nat, b: nat)
    requires Reached(l, d, s, DEPTH) && Shaped(s) && Enabled(l, s, Get(who, At(blockno), b))
    ensures C.Addr(Got(s, who, At(blockno), b).m.bufs[b]) == At(blockno)
  {
    ReachedInv(l, d, s);
    if At(blockno) in s.m.k.at {
      assert C.BlockOk(s.m.bufs, s.m.k, At(blockno));
    }
  }

  lemma {:induction false} NothingChanged(l: Layout, d: Disk, s: Sys, b: nat)
    requires Reached(l, d, s, DEPTH) && Shaped(s) && b < C.NBUF && s.holder[b] == Nobody
    ensures !s.changed[b]
  {
    ReachedInv(l, d, s);
    assert BufInv(l, s, b);
  }

  /** brelse by the only holder. */
  lemma {:induction false} LetGo(l: Layout, d: Disk, s: Sys, who: Who, b: nat) returns (t: Sys)
    requires Reached(l, d, s, DEPTH) && Shaped(s) && b < C.NBUF && s.holder[b] == who != Nobody && !s.changed[b]
    requires forall i :: 0 <= i < C.NBUF ==> s.waiting[i] == {} && (i != b ==> s.holder[i] == Nobody)
    ensures Reached(l, d, t, DEPTH) && Calm(t) && t.work == s.work
  {
    t := Take(l, d, s, Release(who, b));
  }

  lemma {:induction false} HeldSized(l: Layout, d: Disk, s: Sys, b: nat, blockno: nat)
    requires Reached(l, d, s, DEPTH) && Shaped(s) && b < C.NBUF && s.holder[b] != Nobody
    requires C.Addr(s.m.bufs[b]) == At(blockno) && blockno < l.size
    ensures |s.m.bufs[b].data| == WORDS
  {
    ReachedInv(l, d, s);
    assert BufInv(l, s, b) && C.BufOk(s.m.k, s.m.bufs[b], b) && Agree(l, s, blockno);
  }

  // ---------------------------------------------------------------- one logged block

  /** bread, log_write and brelse by operation `p`. */
  lemma {:induction false} LogOne(l: Layout, d: Disk, s: Sys, p: nat, blockno: nat) returns (t: Sys)
    requires Reached(l, d, s, DEPTH) && Calm(s) && s.work.log.phase.Running? && |s.work.log.lh| < C.NBUF
    requires l.Home(blockno) && blockno !in s.work.log.lh && |s.work.log.lh| < LOGBLOCKS
    requires p < |s.work.log.slots| && s.work.log.slots[p].In? && s.work.log.slots[p].added < MAXOPBLOCKS
    ensures Reached(l, d, t, DEPTH) && Calm(t) && t.work.log.phase.Running?
    ensures t.work.log.lh == s.work.log.lh + [blockno] && t.work.log.outstanding == s.work.log.outstanding
    ensures var x := s.work.log.slots[p]; t.work.log.slots == s.work.log.slots[p := x.(added := x.added + 1)]
  {
    var u, b := Read(l, d, s, Proc(p), blockno);
    HeldSized(l, d, u, b, blockno);
    var v := Take(l, d, u, LogWrite(p, b));
    LoggedOne(l, u, p, b);
    t := LetGo(l, d, v, Proc(p), b);
  }

  lemma {:induction false} LoggedOne(l: Layout, s: Sys, p: nat, b: nat)
    requires Shaped(s) && P.Shape(l, s.work.log) && Enabled(l, s, LogWrite(p, b))
    requires s.m.bufs[b].blockno !in s.work.log.lh
    ensures var t, x := Do(l, s, LogWrite(p, b)), s.work.log.slots[p];
            && t.holder == s.holder && t.waiting == s.waiting && t.changed == s.changed[b := false]
            && t.work.log.phase == s.work.log.phase && t.work.log.outstanding == s.work.log.outstanding
            && t.work.log.lh == s.work.log.lh + [s.m.bufs[b].blockno]
            && t.work.log.slots == s.work.log.slots[p := x.(added := x.added + 1)]
  {
  }

  /** Operation `p` logs `bs[m..m + k]`. */
  lemma {:induction false} LogMany(l: Layout, d: Disk, s: Sys, p: nat, bs: seq<nat>, m: nat, k: nat) returns (t: Sys)
    requires Reached(l, d, s, DEPTH) && Calm(s) && s.work.log.phase.Running?
    requires m + k <= |bs| && |bs| <= LOGBLOCKS && |bs| <= C.NBUF && l.AllHome(bs) && s.work.log.lh == bs[..m]
    requires forall i, j :: 0 <= i < j < |bs| ==> bs[i] != bs[j]
    requires p < |s.work.log.slots| && s.work.log.slots[p].In? && s.work.log.slots[p].added + k <= MAXOPBLOCKS
    ensures Reached(l, d, t, DEPTH) && Calm(t) && t.work.log.phase.Running? && t.work.log.lh == bs[..m + k]
    ensures t.work.log.outstanding == s.work.log.outstanding
    ensures var x := s.work.log.slots[p]; t.work.log.slots == s.work.log.slots[p := x.(added := x.added + k)]
    decreases k
  {
    if k == 0 {
      t := s;
    } else {
      assert l.Home(bs[m]);
      var u := LogOne(l, d, s, p, bs[m]);
      assert bs[..m] + [bs[m]] == bs[..m + 1];
      t := LogMany(l, d, u, p, bs, m + 1, k - 1);
    }
  }

  // ---------------------------------------------------------------- begin_op and end_op

  lemma {:induction false} BeginOne(l: Layout, d: Disk, s: Sys, p: nat) returns (t: Sys)
    requires Reached(l, d, s, DEPTH) && Calm(s) && s.work.log.phase.Running? && s.work.log.lh == []
    requires p < |s.work.log.slots| && s.work.log.slots[p].Out? && s.work.log.outstanding >= 0
    requires (s.work.log.outstanding + 1) * MAXOPBLOCKS <= LOGBLOCKS
    ensures Reached(l, d, t, DEPTH) && Calm(t) && t.work.log.phase.Running? && t.work.log.lh == []
    ensures t.work.log.outstanding == s.work.log.outstanding + 1
    ensures |t.work.log.slots| == |s.work.log.slots| && t.work.log.slots[p].In? && t.work.log.slots[p].added == 0
    ensures t.work.log.slots == s.work.log.slots[p := t.work.log.slots[p]]
  {
    t := Take(l, d, s, Call(P.Begin(p)));
  }

  lemma {:induction false} EndOne(l: Layout, d: Disk, s: Sys, p: nat) returns (t: Sys)
    requires Reached(l, d, s, DEPTH) && Calm(s) && s.work.log.phase.Running?
    requires p < |s.work.log.slots| && s.work.log.slots[p].In? && s.work.log.outstanding >= 1
    ensures Reached(l, d, t, DEPTH) && Calm(t) && t.work.log.lh == s.work.log.lh && t.work.stage == s.work.stage
    ensures t.work.log.slots == s.work.log.slots[p := P.Out] && t.work.log.outstanding == s.work.log.outstanding - 1
    ensures t.work.log.phase == if s.work.log.outstanding == 1 then P.Committing(0, s.work.log.disk) else P.Running
  {
    t := Take(l, d, s, Call(P.End(p)));
  }

  // ---------------------------------------------------------------- boot

  /** The first `n` blocks of disk `d`, as the log's device. */
  ghost function OnDevice(d: Disk, n: nat): (r: map<C.Where, C.Block>)
    requires n <= |d|
    ensures forall b :: 0 <= b < n ==> At(b) in r && r[At(b)] == d[b]
  {
    if n == 0 then map[] else OnDevice(d, n - 1)[At(n - 1) := d[n - 1]]
  }

  /** Power-on with disk `d` under the cache. */
  lemma {:induction false} PowerOn(l: Layout, d: Disk) returns (s: Sys)
    requires l.Wf(d)
    ensures Reached(l, d, s, DEPTH) && Calm(s) && s.work == Work(P.Boot(l, d), [], Unread)
  {
    var disk := OnDevice(d, |d|);
    s := Sys(Work(P.Boot(l, d), [], Unread), C.Booted(disk),
             seq(C.NBUF, _ => Nobody), seq(C.NBUF, _ => {}), seq(C.NBUF, _ => false));
    BootReached(l, d, s);
  }

  /** read_head on a disk with an empty log. */
  lemma {:induction false} ReadEmpty(l: Layout, d: Disk, s: Sys) returns (t: Sys)
    requires Reached(l, d, s, DEPTH) && Calm(s) && s.work == Work(P.Boot(l, d), [], Unread) && l.Wf(d)
             && l.Header(d) == []
    ensures Reached(l, d, t, DEPTH) && Calm(t) && t.work == Work(P.Boot(l, d), [], Plain)
  {
    var u, b := Read(l, d, s, Kernel, l.start);
    var v := Take(l, d, u, ReadHead(b));
    B.HeadIs(l, d, v);
    t := LetGo(l, d, v, Kernel, b);
  }

  /** write_head clearing the log. */
  lemma {:induction false} ClearEmpty(l: Layout, d: Disk, s: Sys) returns (t: Sys)
    requires Reached(l, d, s, DEPTH) && Calm(s) && s.work == Work(P.Boot(l, d), [], Plain) && l.Wf(d)
             && l.Header(d) == []
    ensures Reached(l, d, t, DEPTH) && Calm(t) && P.Shape(l, P.Boot(l, d)) && P.Enabled(l, P.Boot(l, d), P.RecoverWrite)
    ensures t.work == Work(P.Next(l, P.Boot(l, d), P.RecoverWrite), [], Plain)
  {
    var u, b := Read(l, d, s, Kernel, l.start);
    B.ClearJob(l, d, u);
    var v := Take(l, d, u, Copy(b, b));
    CopyOnly(l, u, b);
    var w := Take(l, d, v, WriteBack(b));
    t := LetGo(l, d, w, Kernel, b);
  }

  lemma {:induction false} CopyOnly(l: Layout, s: Sys, b: nat)
    requires Shaped(s) && P.Shape(l, s.work.log) && Enabled(l, s, Copy(b, b))
    ensures var t := Do(l, s, Copy(b, b));
            && t.work == s.work.(stage := Copied) && t.holder == s.holder && t.waiting == s.waiting
            && NextJob(t.work) == NextJob(s.work) && To(l, t.work) == To(l, s.work)
            && C.Addr(t.m.bufs[b]) == C.Addr(s.m.bufs[b])
  {
    SameJob(l, s.work);
  }

  /** The machine once recovery has found an empty log. */
  lemma {:induction false} Started(l: Layout, d: Disk) returns (s: Sys)
    requires l.Wf(d) && l.Header(d) == []
    ensures Reached(l, d, s, DEPTH) && Calm(s) && s.work.log.phase.Running? && s.work.log.lh == []
    ensures s.work.log.outstanding == 0 && s.work.log.slots == seq(NPROC, _ => P.Out)
  {
    s := PowerOn(l, d);
    s := ReadEmpty(l, d, s);
    s := ClearEmpty(l, d, s);
    B.FinishJob(l, d, s);
    s := Take(l, d, s, Finish);
  }

  // ---------------------------------------------------------------- the full cache

  /** With every buffer pinned, a block that is not logged is not cached, and there is no
      buffer for it. */
  lemma {:induction false} NoBufferLeft(l: Layout, d: Disk, s: Sys, blockno: nat)
    requires Reached(l, d, s, DEPTH) && Shaped(s) && B.Pending(s.work) >= C.NBUF && !Unsaved(s.work, At(blockno))
    ensures At(blockno) !in s.m.k.at && B.AllUsed(s)
  {
    ReachedInv(l, d, s);
    if At(blockno) in s.m.k.at {
      assert C.BlockOk(s.m.bufs, s.m.k, At(blockno));
      B.Crowded(l, s, s.m.k.at[At(blockno)]);
    }
    forall b | 0 <= b < C.NBUF ensures s.m.bufs[b].refcnt != 0 {
      if s.m.bufs[b].refcnt == 0 {
        UnusedUnchanged(l, s, b);
        B.Crowded(l, s, b);
      }
    }
  }

  /** Three operations begin and each logs its part of `bs`. */
  lemma {:induction false} LogAll(l: Layout, d: Disk, bs: seq<nat>) returns (s: Sys)
    requires l.Wf(d) && l.Header(d) == [] && NPROC >= 3 && C.NBUF == LOGBLOCKS
    requires |bs| == LOGBLOCKS && l.AllHome(bs) && forall i, j :: 0 <= i < j < |bs| ==> bs[i] != bs[j]
    ensures Reached(l, d, s, DEPTH) && Calm(s) && s.work.log.phase.Running? && s.work.log.lh == bs
    ensures s.work.log.outstanding == 3 && |s.work.log.slots| == NPROC
    ensures forall p :: 0 <= p < 3 ==> s.work.log.slots[p].In?
  {
    s := Started(l, d);
    s := BeginOne(l, d, s, 0);
    s := BeginOne(l, d, s, 1);
    s := BeginOne(l, d, s, 2);
    s := LogMany(l, d, s, 0, bs, 0, MAXOPBLOCKS);
    s := LogMany(l, d, s, 1, bs, MAXOPBLOCKS, MAXOPBLOCKS);
    s := LogMany(l, d, s, 2, bs, 2 * MAXOPBLOCKS, MAXOPBLOCKS);
    assert bs[..LOGBLOCKS] == bs;
  }

  /** The three operations end, the last of which starts the commit. */
  lemma {:induction false} EndAll(l: Layout, d: Disk, s0: Sys) returns (s: Sys)
    requires Reached(l, d, s0, DEPTH) && Calm(s0) && s0.work.log.phase.Running?
    requires s0.work.log.outstanding == 3 && |s0.work.log.slots| >= 3
    requires forall p :: 0 <= p < 3 ==> s0.work.log.slots[p].In?
    ensures Reached(l, d, s, DEPTH) && Calm(s) && s.work.stage.Plain? && s.work.log.lh == s0.work.log.lh
    ensures s.work.log.phase.Committing? && s.work.log.phase.k == 0
  {
    B.WorkOk(l, d, s0);
    assert s0.work.stage.Plain?;
    s := EndOne(l, d, s0, 0);
    s := EndOne(l, d, s, 1);
    s := EndOne(l, d, s, 2);
  }

  /** With as many buffers as log blocks, three operations that each log exactly their budget
      lead to a commit whose first bread, of the first log block, finds no buffer: it is not
      cached, and every buffer is in use, although no process holds one. */
  lemma {:induction false} FullCacheReachable(l: Layout, d: Disk, bs: seq<nat>) returns (s: Sys)
    requires l.Wf(d) && l.Header(d) == [] && NPROC >= 3 && C.NBUF == LOGBLOCKS
    requires |bs| == LOGBLOCKS && l.AllHome(bs) && forall i, j :: 0 <= i < j < |bs| ==> bs[i] != bs[j]
    ensures Reached(l, d, s, DEPTH) && Calm(s) && s.work.stage.Plain? && s.work.log.lh == bs
    ensures s.work.log.phase.Committing? && s.work.log.phase.k == 0 && NextJob(s.work) == ToLog(0)
    ensures At(To(l, s.work)) !in s.m.k.at && B.AllUsed(s)
  {
    s := LogAll(l, d, bs);
    s := EndAll(l, d, s);
    B.WorkOk(l, d, s);
    NotLogged(l, s.work, To(l, s.work));
    NoBufferLeft(l, d, s, To(l, s.work));
  }
}
