/** The code of kernel/log.c in terms of the buffer cache of kernel/bio.c: every method keeps
    a run of `CachedLog`, so what is proved there of all runs is proved of this code. */
module BufferedLog {
  import opened Params
  import opened LogDisk
  import opened CachedLog
  import C = Bcache
  import P = LogProtocol

  /** Who holds a buffer has a reference to it, and its contents are read. */
  lemma {:induction false} Held(l: Layout, d: Disk, s: Sys, b: nat)
    requires Reached(l, d, s, DEPTH) && b < C.NBUF
    ensures Shaped(s) && Nobody !in s.waiting[b] && (s.waiting[b] != {} ==> s.m.bufs[b].dev != 0)
            && (s.holder[b] != Nobody ==> s.m.bufs[b].dev != 0 && s.m.bufs[b].valid && s.m.k.users[b] > 0)
  {
    ReachedInv(l, d, s);
    assert BufInv(l, s, b);
  }

  lemma {:induction false} MayRelease(l: Layout, d: Disk, s: Sys, who: Who, b: nat)
    requires Reached(l, d, s, DEPTH) && Shaped(s) && Enabled(l, s, Release(who, b))
    ensures C.Dirty(s.m.k, s.m.bufs[b]) ==> s.m.k.pins[b] > 0
  {
    ReachedInv(l, d, s);
    ReleaseSafe(l, s, who, b);
  }

  lemma {:induction false} HeaderSized(l: Layout, d: Disk, s: Sys, b: nat)
    requires Reached(l, d, s, DEPTH) && Shaped(s)
    requires Enabled(l, s, Copy(b, b)) && NextJob(s.work).Head?
    ensures |s.m.bufs[b].data| == WORDS && |NextJob(s.work).bs| <= LOGBLOCKS
  {
    ReachedInv(l, d, s);
    assert Agree(l, s, l.start) && C.BufOk(s.m.k, s.m.bufs[b], b) && BufInv(l, s, b);
  }

  lemma {:induction false} LastPinned(l: Layout, d: Disk, s: Sys, b: nat)
    requires Reached(l, d, s, DEPTH) && Shaped(s) && Enabled(l, s, Unpin(b))
    ensures s.m.k.pins[b] > 0
  {
    ReachedInv(l, d, s);
    assert BufInv(l, s, b);
    UnpinWork(s.work);
    assert s.work.log.lh[Done(s.work)..][0] == Last(s.work);
  }

  // ---------------------------------------------------------------- what the log holds meanwhile

  /** The buffers the log holds, with their blocks. */
  ghost function Hold(s: Sys): map<nat, C.Where>
    requires Shaped(s)
  {
    map b: nat | b < C.NBUF && s.holder[b] == Kernel :: C.Addr(s.m.bufs[b])
  }

  ghost predicate Waits(s: Sys, b: nat)
    requires Shaped(s)
  {
    b < C.NBUF && Kernel in s.waiting[b]
  }

  /** Other processes moved: the log's state, what it holds and what it waits for stay. */
  ghost predicate Rely(s: Sys, t: Sys)
    requires Shaped(s) && Shaped(t)
  {
    && t.work == s.work && Hold(t) == Hold(s)
    && (forall b :: 0 <= b < C.NBUF ==> (Waits(s, b) <==> Waits(t, b)))
    && (forall b :: 0 <= b < C.NBUF && Waits(s, b) ==> C.Addr(t.m.bufs[b]) == C.Addr(s.m.bufs[b]))
  }

  /** A buffer somebody refers to keeps its block. */
  lemma {:induction false} KeepsBlock(l: Layout, d: Disk, s: Sys, who: Who, w: C.Where, x: nat, b: nat)
    requires Reached(l, d, s, DEPTH) && Shaped(s) && Enabled(l, s, Get(who, w, x)) && b < C.NBUF
    requires s.holder[b] != Nobody || s.waiting[b] != {}
    ensures C.Addr(Got(s, who, w, x).m.bufs[b]) == C.Addr(s.m.bufs[b])
  {
    Held(l, d, s, b);
    Referred(l, d, s, b);
  }

  lemma {:induction false} Referred(l: Layout, d: Disk, s: Sys, b: nat)
    requires Reached(l, d, s, DEPTH) && b < C.NBUF
    ensures Shaped(s) && (s.holder[b] != Nobody || s.waiting[b] != {} ==> s.m.bufs[b].refcnt > 0)
  {
    ReachedInv(l, d, s);
    assert BufInv(l, s, b) && C.BufOk(s.m.k, s.m.bufs[b], b);
  }

  lemma {:induction false} GetRely(l: Layout, d: Disk, s: Sys, t: Sys, who: Who, w: C.Where, x: nat)
    requires Reached(l, d, s, DEPTH) && Stepped(l, s, Get(who, w, x), t) && Shaped(t) && who != Kernel
    ensures Rely(s, t)
  {
    forall b | 0 <= b < C.NBUF && (s.holder[b] == Kernel || Waits(s, b))
      ensures C.Addr(t.m.bufs[b]) == C.Addr(s.m.bufs[b])
    {
      KeepsBlock(l, d, s, who, w, x, b);
    }
  }

  lemma {:induction false} LockRely(l: Layout, s: Sys, t: Sys, who: Who, x: nat)
    requires Stepped(l, s, Lock(who, x), t) && Shaped(t) && who != Kernel && Nobody !in s.waiting[x]
    ensures Rely(s, t)
  {
  }

  lemma {:induction false} ReleaseRely(l: Layout, s: Sys, t: Sys, who: Who, x: nat)
    requires Stepped(l, s, Release(who, x), t) && Shaped(t) && who != Kernel
    ensures Rely(s, t)
  {
  }

  lemma {:induction false} RelyTwice(s: Sys, t: Sys, u: Sys)
    requires Shaped(s) && Shaped(t) && Shaped(u) && Rely(s, t) && Rely(t, u)
    ensures Rely(s, u)
  {
    assert forall b :: 0 <= b < C.NBUF ==> (Waits(s, b) <==> Waits(t, b));
  }

  /** While the log commits or recovers, a process that holds a buffer has not changed it. */
  lemma {:induction false} NotChanged(l: Layout, d: Disk, s: Sys, b: nat)
    requires Reached(l, d, s, DEPTH) && !s.work.log.phase.Running? && b < C.NBUF
    ensures Shaped(s) && (s.holder[b] != Kernel || !s.work.stage.Copied? ==> !s.changed[b])
  {
    ReachedInv(l, d, s);
    if s.changed[b] {
      OnlyTarget(l, s, b);
    }
  }

  // ---------------------------------------------------------------- the log's own steps

  lemma {:induction false} GetMine(l: Layout, d: Disk, s: Sys, t: Sys, w: C.Where, x: nat)
    requires Reached(l, d, s, DEPTH) && Stepped(l, s, Get(Kernel, w, x), t) && Shaped(t)
    ensures t.work == s.work && Hold(t) == Hold(s)
    ensures forall b :: 0 <= b < C.NBUF && b != x ==> (Waits(t, b) <==> Waits(s, b))
  {
    forall b | 0 <= b < C.NBUF && s.holder[b] == Kernel
      ensures C.Addr(t.m.bufs[b]) == C.Addr(s.m.bufs[b])
    {
      KeepsBlock(l, d, s, Kernel, w, x, b);
    }
  }

  lemma {:induction false} LockMine(l: Layout, s: Sys, t: Sys, x: nat)
    requires Stepped(l, s, Lock(Kernel, x), t) && Shaped(t)
    ensures t.work == s.work && Hold(t) == Hold(s)[x := C.Addr(s.m.bufs[x])]
    ensures forall b :: 0 <= b < C.NBUF ==> (Waits(t, b) <==> Waits(s, b) && b != x)
  {
  }

  lemma {:induction false} ReleaseMine(l: Layout, s: Sys, t: Sys, x: nat)
    requires Stepped(l, s, Release(Kernel, x), t) && Shaped(t)
    ensures t.work == s.work && Hold(t) == Hold(s) - {x}
    ensures forall b :: 0 <= b < C.NBUF ==> (Waits(t, b) <==> Waits(s, b))
  {
  }

  /** Copying, writing and unpinning do not change which buffers the log holds. */
  lemma {:induction false} WorkMine(l: Layout, s: Sys, t: Sys, step: Step)
    requires Stepped(l, s, step, t) && Shaped(t)
    requires step.Copy? || step.WriteBack? || step.Unpin? || step.ReadHead? || step.Finish?
    ensures Hold(t) == Hold(s) && forall b :: 0 <= b < C.NBUF ==> (Waits(t, b) <==> Waits(s, b))
  {
  }

  // ---------------------------------------------------------------- room in the cache

  /** Every buffer is referred to. */
  ghost predicate AllUsed(s: Sys)
    requires Shaped(s)
  {
    forall b :: 0 <= b < C.NBUF ==> s.m.bufs[b].refcnt != 0
  }

  /** No process refers to a buffer. */
  ghost predicate Alone(s: Sys)
    requires Shaped(s)
  {
    forall b :: 0 <= b < C.NBUF ==> !s.holder[b].Proc? && s.waiting[b] <= {Kernel}
  }

  /** `Alone`, folded: equal to it at every depth, but unfolded only by `AloneIs`. */
  ghost predicate AloneAt(s: Sys, k: nat)
    requires Shaped(s)
  {
    if k == 0 then Alone(s) else AloneAt(s, k - 1)
  }

  lemma {:induction false} AloneIs(s: Sys, k: nat)
    requires Shaped(s)
    ensures AloneAt(s, k) <==> Alone(s)
  {
    if k > 0 {
      AloneIs(s, k - 1);
    }
  }

  lemma {:induction false} StepAlone(l: Layout, s: Sys, step: Step, t: Sys)
    requires Stepped(l, s, step, t) && Shaped(t) && Alone(s) && (step.Get? ==> step.who == Kernel)
    ensures Alone(t)
  {
  }

  /** A run goes one step further. */
  lemma {:induction false} Advance(l: Layout, d: Disk, s: Sys, step: Step, t: Sys, alone: bool)
    requires Reached(l, d, s, DEPTH) && Stepped(l, s, step, t)
    requires alone ==> AloneAt(s, DEPTH) && (step.Get? ==> step.who == Kernel)
    ensures Reached(l, d, t, DEPTH) && Shaped(t) && (alone ==> AloneAt(t, DEPTH))
  {
    Append(l, d, s, step, t);
    if alone {
      AloneIs(s, DEPTH);
      StepAlone(l, s, step, t);
      AloneIs(t, DEPTH);
    }
  }

  /** Logged blocks that are not installed and unpinned. */
  function Pending(s: Work): nat { |s.log.lh| - Done(s) }

  /** Too few buffers to install what is left. */
  predicate NoRoom(s: Work) { if s.log.phase.Recovering? then C.NBUF < 2 else Pending(s) >= C.NBUF }

  /** The blocks that recovery has to install. */
  function HeadList(l: Layout, s: Work): seq<nat> {
    if s.log.phase.Recovering? && l.Wf(s.log.phase.base) then l.Header(s.log.phase.base) else []
  }

  /** Process `p` may log buffer `b`: it holds it, and its operation has not used up its budget. */
  ghost predicate MayLog(l: Layout, s: Sys, p: nat, b: nat)
    requires Shaped(s)
  {
    && b < C.NBUF && s.holder[b] == Proc(p) && s.m.bufs[b].dev == DEV && |s.m.bufs[b].data| == WORDS
    && l.Home(s.m.bufs[b].blockno) && P.InBudget(s.work.log, p, s.m.bufs[b].blockno)
  }

  /** What log_write does to the cache and to the header. */
  ghost function Enlisted(m: C.Mem, b: nat, lh: seq<nat>): C.Mem
    requires C.Sized(m) && b < C.NBUF
  {
    if m.bufs[b].blockno in lh then m else C.Counted(m, b, 0, 1)
  }

  function Listing(m: C.Mem, b: nat, lh: seq<nat>): seq<nat>
    requires C.Sized(m) && b < C.NBUF
  {
    if m.bufs[b].blockno in lh then lh else lh + [m.bufs[b].blockno]
  }

  lemma {:induction false} LogStep(l: Layout, s: Sys, p: nat, b: nat) returns (t: Sys)
    requires Shaped(s) && P.Shape(l, s.work.log) && Enabled(l, s, CachedLog.LogWrite(p, b))
    ensures Stepped(l, s, CachedLog.LogWrite(p, b), t)
    ensures t.holder == s.holder && t.waiting == s.waiting && t.changed == s.changed[b := false]
    ensures t.m == Enlisted(s.m, b, s.work.log.lh) && t.work.log.lh == Listing(s.m, b, s.work.log.lh)
  {
    t := Logging(l, s, p, b);
  }

  /** The first or the second of two breads found its block not cached. */
  ghost predicate Stuck(s: Sys, x: int, u: nat, v: nat)
    requires Shaped(s)
  {
    if x == -1 then Hold(s) == map[] && At(u) !in s.m.k.at
    else 0 <= x < C.NBUF && Hold(s) == map[x := At(u)] && At(v) !in s.m.k.at
  }

  class CachedKernel {
    const others: nat -> seq<Step>            // what other processes try to do, and when
    var turn: nat
    const l: Layout
    ghost const d: Disk                       // the disk at power-on
    const cache: C.Cache
    var lh: seq<nat>                          // log.lh
    var holder: seq<Who>
    var waiting: seq<set<Who>>
    ghost var changed: seq<bool>
    ghost var work: Work
    ghost var alone: bool                     // no other process refers to a buffer, or will

    ghost function S(): Sys
      reads this, cache
    {
      Sys(work, cache.M(), holder, waiting, changed)
    }

    ghost predicate Valid()
      reads this, cache
    {
      && cache.Valid() && Reached(l, d, S(), DEPTH) && Shaped(S()) && (alone ==> Silent() && AloneAt(S(), DEPTH))
    }

    /** No other process does anything. */
    ghost predicate Silent() { forall t :: others(t) == [] }

    /** The step `step` was taken, and nothing else happened. */
    twostate predicate Took(step: Step)
      reads this, cache
    {
      Valid() && Stepped(l, old(S()), step, S())
    }

    /** The machine before initlog. */
    constructor (layout: Layout, blocks: map<C.Where, C.Block>, schedule: nat -> seq<Step>, ghost disk: Disk)
      requires layout.Wf(disk)
      requires forall b :: 0 <= b < layout.size ==> At(b) in blocks && blocks[At(b)] == disk[b]
      ensures Valid() && fresh(cache) && l == layout && d == disk && work == Work(P.Boot(l, d), [], Unread)
      ensures holder == seq(C.NBUF, _ => Nobody) && waiting == seq(C.NBUF, _ => {}) && others == schedule && !alone
    {
      l, d, alone := layout, disk, false;
      cache := new C.Cache(blocks);
      lh := [];
      others, turn := schedule, 0;
      holder, waiting := seq(C.NBUF, _ => Nobody), seq(C.NBUF, _ => {});
      changed := seq(C.NBUF, _ => false);
      work := Work(P.Boot(layout, disk), [], Unread);
      new;
      BootReached(l, d, S());
      ReachedInv(l, d, S());
    }

    /** bget: -1, a panic, if every buffer is in use. */
    method Bget(who: Who, w: C.Where) returns (b: int)
      requires Valid() && who != Nobody && (forall i :: 0 <= i < C.NBUF ==> who !in waiting[i])
                 && (alone ==> who == Kernel)
      requires w.0 != 0 && w in cache.disk
      modifies `turn, `lh, `holder, `waiting, `changed, `work, cache
      ensures lh == old(lh) && (b == -1 ==> Valid() && S() == old(S()))
      ensures b == -1 <==> old(w !in cache.k.at && AllUsed(S()))
      ensures b != -1 ==> 0 <= b < C.NBUF && Took(Get(who, w, b)) && C.Addr(cache.bufs[b]) == w
    {
      ReachedShape(l, d, S());
      b := cache.Bget(w.0, w.1);
      if b != -1 {
        waiting := waiting[b := waiting[b] + {who}];
        Advance(l, d, old(S()), Get(who, w, b), S(), alone);
      }
    }

    /** acquiresleep when the lock is free, and the rest of bread. */
    method Acquire(who: Who, b: nat)
      requires Valid() && Enabled(l, S(), Lock(who, b))
      modifies `turn, `lh, `holder, `waiting, `changed, `work, cache
      ensures Took(Lock(who, b)) && lh == old(lh)
    {
      ReachedShape(l, d, S());
      Held(l, d, S(), b);
      cache.Fill(b);
      waiting, holder := waiting[b := waiting[b] - {who}], holder[b := who];
      Advance(l, d, old(S()), Lock(who, b), S(), alone);
    }

    /** brelse, by whoever holds the buffer and is not in the middle of changing it. */
    method Brelse(who: Who, b: nat)
      requires Valid() && Enabled(l, S(), Release(who, b))
      modifies `turn, `lh, `holder, `waiting, `changed, `work, cache
      ensures Took(Release(who, b)) && lh == old(lh)
    {
      ReachedShape(l, d, S());
      Held(l, d, S(), b);
      MayRelease(l, d, S(), who, b);
      cache.Brelse(b);
      holder := holder[b := Nobody];
      Advance(l, d, old(S()), Release(who, b), S(), alone);
    }

    /** An operation changes the contents of a buffer it holds. */
    method Modify(p: nat, b: nat, data: Block)
      requires Valid() && Enabled(l, S(), Change(p, b, data))
      modifies `turn, `lh, `holder, `waiting, `changed, `work, cache
      ensures Took(Change(p, b, data)) && lh == old(lh)
    {
      ReachedShape(l, d, S());
      Held(l, d, S(), b);
      cache.Modify(b, data);
      changed := changed[b := true];
      Advance(l, d, old(S()), Change(p, b, data), S(), alone);
    }

    /** Where the header lists a block, or its length. */
    method Find(blockno: nat) returns (i: nat)
      ensures i <= |lh| && (i == |lh| <==> blockno !in lh) && (i < |lh| ==> lh[i] == blockno)
    {
      i := 0;
      while i < |lh| && lh[i] != blockno
        invariant i <= |lh| && blockno !in lh[..i]
      {
        i := i + 1;
      }
      assert lh[..|lh|] == lh;
    }

    /** log_write's loop: a block that is not listed is listed and its buffer pinned. */
    method Enlist(b: nat)
      requires cache.Valid() && b < C.NBUF
      modifies this`lh, cache
      ensures cache.Valid() && cache.M() == Enlisted(old(cache.M()), b, old(lh))
              && lh == Listing(old(cache.M()), b, old(lh))
    {
      var i := Find(cache.bufs[b].blockno);
      if i == |lh| {
        lh := lh + [cache.bufs[b].blockno];
        cache.Bpin(b);
      }
    }

    /** log_write by an operation within its budget. A full log is a panic, whether or not the
        block is already in it. */
    method LogWrite(p: nat, b: nat) returns (ok: bool)
      requires Valid() && lh == work.log.lh && MayLog(l, S(), p, b)
      modifies `turn, `lh, `holder, `waiting, `changed, `work, cache
      ensures ok <==> |old(lh)| < LOGBLOCKS
      ensures ok ==> Took(CachedLog.LogWrite(p, b)) && lh == work.log.lh
      ensures !ok ==> Valid() && S() == old(S()) && lh == old(lh)
    {
      if |lh| >= LOGBLOCKS {
        return false;
      }
      Record(p, b);
      return true;
    }

    method Record(p: nat, b: nat)
      requires Valid() && lh == work.log.lh && Enabled(l, S(), CachedLog.LogWrite(p, b))
      modifies `turn, `lh, `holder, `waiting, `changed, `work, cache
      ensures Took(CachedLog.LogWrite(p, b)) && lh == work.log.lh
    {
      ReachedShape(l, d, S());
      ghost var t := LogStep(l, S(), p, b);
      Enlist(b);
      work, changed := t.work, changed[b := false];
      assert S() == t;
      Advance(l, d, old(S()), CachedLog.LogWrite(p, b), S(), alone);
    }

    /** memmove from one buffer to another. */
    method Memmove(from: nat, to: nat)
      requires Valid() && Enabled(l, S(), Copy(from, to)) && !NextJob(work).Head?
      modifies `turn, `lh, `holder, `waiting, `changed, `work, cache
      ensures Took(Copy(from, to)) && lh == old(lh)
    {
      Put(from, to, cache.bufs[from].data);
    }

    /** write_head's loop: the header buffer gets the count and the block numbers. */
    method FillHead(b: nat)
      requires Valid() && Enabled(l, S(), Copy(b, b)) && NextJob(work) == Head(lh)
      modifies `turn, `lh, `holder, `waiting, `changed, `work, cache
      ensures Took(Copy(b, b)) && lh == old(lh)
    {
      HeaderSized(l, d, S(), b);
      var hb := HeaderWith(cache.bufs[b].data, lh);
      Put(b, b, hb);
    }

    static method HeaderWith(h: seq<nat>, bs: seq<nat>) returns (hb: seq<nat>)
      requires |bs| < |h|
      ensures hb == [|bs|] + bs + h[1 + |bs|..]
    {
      hb := h[0 := |bs|];
      for i := 0 to |bs|
        invariant |hb| == |h| && hb[0] == |bs| && hb[1..1 + i] == bs[..i] && hb[1 + i..] == h[1 + i..]
      {
        ghost var g := hb;
        hb := hb[1 + i := bs[i]];
        assert hb[1..2 + i] == g[1..1 + i] + [bs[i]] && bs[..i + 1] == bs[..i] + [bs[i]];
        assert hb[2 + i..] == g[1 + i..][1..];
      }
      assert hb == [|bs|] + hb[1..1 + |bs|] + hb[1 + |bs|..];
    }

    method Put(from: nat, to: nat, data: seq<nat>)
      requires Valid() && Enabled(l, S(), Copy(from, to)) && data == Contents(NextJob(work), cache.bufs[from].data)
      modifies `turn, `lh, `holder, `waiting, `changed, `work, cache
      ensures Took(Copy(from, to)) && lh == old(lh)
    {
      ReachedShape(l, d, S());
      Held(l, d, S(), to);
      cache.Modify(to, data);
      changed := changed[to := true];
      work := work.(stage := Copied);
      Advance(l, d, old(S()), Copy(from, to), S(), alone);
    }

    /** bwrite, by the log. */
    method Bwrite(to: nat)
      requires Valid() && Enabled(l, S(), WriteBack(to))
      modifies `turn, `lh, `holder, `waiting, `changed, `work, cache
      ensures Took(WriteBack(to)) && lh == old(lh)
    {
      ReachedShape(l, d, S());
      Held(l, d, S(), to);
      ghost var w := Wrote(l, work);
      cache.Bwrite(to);
      changed := changed[to := false];
      work := w;
      Advance(l, d, old(S()), WriteBack(to), S(), alone);
    }

    method Bunpin(b: nat)
      requires Valid() && Enabled(l, S(), Unpin(b))
      modifies `turn, `lh, `holder, `waiting, `changed, `work, cache
      ensures Took(Unpin(b)) && lh == old(lh)
    {
      ReachedShape(l, d, S());
      Held(l, d, S(), b);
      LastPinned(l, d, S(), b);
      cache.Bunpin(b);
      work := work.(stage := Plain);
      Advance(l, d, old(S()), Unpin(b), S(), alone);
    }
  
    // -------------------------------------------------------------- among other processes

    /** Another process tries a step. */
    method Try(step: Step)
      requires Valid() && !alone && !work.log.phase.Running?
      modifies `turn, `lh, `holder, `waiting, `changed, `work, cache
      ensures Valid() && lh == old(lh) && Rely(old(S()), S())
    {
      match step
      case Get(who, w, _) =>
        if who.Proc? && w.0 != 0 && w in cache.disk && forall i :: 0 <= i < C.NBUF ==> who !in waiting[i] {
          var b := Bget(who, w);
          if b != -1 {
            GetRely(l, d, old(S()), S(), who, w, b);
          }
        }
      case Lock(who, b) =>
        if who.Proc? && b < C.NBUF && who in waiting[b] && holder[b] == Nobody {
          Held(l, d, S(), b);
          Acquire(who, b);
          LockRely(l, old(S()), S(), who, b);
        }
      case Release(who, b) =>
        if b < C.NBUF && who.Proc? && holder[b] == who {
          LetGo(b);
        }
      case _ =>
    }

    /** The process that holds a buffer releases it. */
    method LetGo(b: nat)
      requires Valid() && !work.log.phase.Running? && b < C.NBUF && holder[b].Proc?
      modifies `turn, `lh, `holder, `waiting, `changed, `work, cache
      ensures Valid() && lh == old(lh) && Rely(old(S()), S()) && holder[b] == Nobody
    {
      var who := holder[b];
      NotChanged(l, d, S(), b);
      Brelse(who, b);
      ReleaseRely(l, old(S()), S(), who, b);
    }

    /** Other processes run. */
    method Meanwhile()
      requires Valid() && !work.log.phase.Running?
      modifies `turn, `lh, `holder, `waiting, `changed, `work, cache
      ensures Valid() && lh == old(lh) && Rely(old(S()), S())
    {
      var todo := others(turn);
      turn := turn + 1;
      for i := 0 to |todo|
        invariant Valid() && lh == old(lh) && Rely(old(S()), S())
      {
        ghost var s := S();
        Try(todo[i]);
        RelyTwice(old(S()), s, S());
      }
    }
  
    // -------------------------------------------------------------- the log at work

    /** The log commits or recovers and is not waiting for a buffer. */
    ghost predicate Ready()
      reads this, cache
    {
      Valid() && !work.log.phase.Running? && forall b :: 0 <= b < C.NBUF ==> !Waits(S(), b)
    }

    /** bget by the log. */
    method GetBuffer(blockno: nat) returns (x: int)
      requires Ready() && blockno < l.size
      modifies `turn, `lh, `holder, `waiting, `changed, `work, cache
      ensures Valid() && lh == old(lh) && work == old(work) && Hold(S()) == old(Hold(S()))
      ensures x == -1 ==> Ready() && AllUsed(S()) && At(blockno) !in cache.k.at
      ensures x != -1 ==> 0 <= x < C.NBUF && Waits(S(), x) && C.Addr(cache.bufs[x]) == At(blockno)
      ensures forall b :: 0 <= b < C.NBUF && b != x ==> !Waits(S(), b)
    {
      Meanwhile();
      BlockThere(l, d, S(), blockno);
      forall i | 0 <= i < C.NBUF ensures Kernel !in waiting[i] {
        assert !Waits(S(), i);
      }
      ghost var s := S();
      x := Bget(Kernel, At(blockno));
      if x != -1 {
        GetMine(l, d, s, S(), At(blockno), x);
      }
    }

    /** acquiresleep by the log, which waits for whoever holds the buffer. */
    method AwaitBuffer(x: nat)
      requires Valid() && !work.log.phase.Running? && Waits(S(), x) && x !in Hold(S())
      modifies `turn, `lh, `holder, `waiting, `changed, `work, cache
      ensures Valid() && lh == old(lh) && work == old(work)
      ensures Hold(S()) == old(Hold(S()))[x := C.Addr(old(cache.bufs[x]))]
      ensures forall b :: 0 <= b < C.NBUF ==> (Waits(S(), b) <==> old(Waits(S(), b)) && b != x)
    {
      Meanwhile();
      assert Waits(S(), x);
      if holder[x] != Nobody {
        assert x !in Hold(S());
        LetGo(x);
      }
      assert Waits(S(), x);
      ghost var s := S();
      Acquire(Kernel, x);
      LockMine(l, s, S(), x);
    }

    /** The log is empty, in memory and on disk, with nothing written since `log`. */
    ghost predicate Emptied(log: P.State)
      reads this, cache
    {
      && Valid() && Hold(S()) == map[] && lh == work.log.lh == [] && work.log.phase.Running?
      && work.log.journal == log.journal
    }

    /** bread by the log; -1 is a panic. */
    method Bread(blockno: nat) returns (x: int)
      requires Ready() && blockno < l.size && At(blockno) !in Hold(S()).Values
      modifies `turn, `lh, `holder, `waiting, `changed, `work, cache
      ensures Ready() && lh == old(lh) && work == old(work)
      ensures x == -1 ==> AllUsed(S()) && At(blockno) !in cache.k.at
      ensures if x == -1 then Hold(S()) == old(Hold(S()))
              else 0 <= x < C.NBUF && x !in old(Hold(S())) && Hold(S()) == old(Hold(S()))[x := At(blockno)]
    {
      x := GetBuffer(blockno);
      if x != -1 {
        NotHeld(S(), x);
        AwaitBuffer(x);
      }
    }

    /** brelse by the log. */
    method Drop(b: nat)
      requires Ready() && !work.stage.Copied? && b in Hold(S())
      modifies `turn, `lh, `holder, `waiting, `changed, `work, cache
      ensures Ready() && lh == old(lh) && work == old(work) && Hold(S()) == old(Hold(S())) - {b}
    {
      Meanwhile();
      NotChanged(l, d, S(), b);
      ghost var s := S();
      Brelse(Kernel, b);
      ReleaseMine(l, s, S(), b);
    }

    /** memmove by the log. */
    method Move(from: nat, to: nat)
      requires Ready() && work.stage.Plain? && Busy(l, work) && !NextJob(work).Head?
      requires from in Hold(S()) && Hold(S())[from] == At(From(l, work)) && to in Hold(S())
               && Hold(S())[to] == At(To(l, work))
      modifies `turn, `lh, `holder, `waiting, `changed, `work, cache
      ensures Ready() && lh == old(lh) && Copies(l, old(work), work) && Hold(S()) == old(Hold(S()))
    {
      Meanwhile();
      ghost var s := S();
      Memmove(from, to);
      CopiesNow(l, old(work));
      WorkMine(l, s, S(), Copy(from, to));
    }

    /** bwrite by the log. */
    method Write(to: nat)
      requires Ready() && work.stage.Copied? && Busy(l, work) && to in Hold(S()) && Hold(S())[to] == At(To(l, work))
      modifies `turn, `lh, `holder, `waiting, `changed, `work, cache
      ensures Ready() && lh == old(lh) && Moves(old(work), work) && Hold(S()) == old(Hold(S()))
    {
      Meanwhile();
      ghost var s := S();
      Bwrite(to);
      WroteMoves(l, d, s);
      WorkMine(l, s, S(), WriteBack(to));
    }

    /** bunpin by the log. */
    method UnpinHome(b: nat)
      requires Ready() && work.stage.Written? && b in Hold(S()) && Hold(S())[b] == At(Last(work))
      modifies `turn, `lh, `holder, `waiting, `changed, `work, cache
      ensures Ready() && lh == old(lh) && work == old(work).(stage := Plain) && Hold(S()) == old(Hold(S()))
    {
      Meanwhile();
      ghost var s := S();
      Bunpin(b);
      WorkMine(l, s, S(), Unpin(b));
    }
  
    /** Two breads in a row. */
    method BreadTwo(u: nat, v: nat) returns (x: int, y: int)
      requires Ready() && Hold(S()) == map[] && u < l.size && v < l.size && u != v
      modifies `turn, `lh, `holder, `waiting, `changed, `work, cache
      ensures Ready() && lh == old(lh) && work == old(work)
      ensures y != -1 ==> 0 <= x < C.NBUF && 0 <= y < C.NBUF && x != y && Hold(S()) == map[x := At(u), y := At(v)]
      ensures y == -1 ==> AllUsed(S()) && Stuck(S(), x, u, v)
    {
      x := Bread(u);
      if x == -1 {
        return x, -1;
      }
      y := Bread(v);
    }

    /** memmove and bwrite. */
    method MoveAndWrite(from: nat, to: nat)
      requires Ready() && work.stage.Plain? && Busy(l, work) && !NextJob(work).Head?
      requires from in Hold(S()) && Hold(S())[from] == At(From(l, work)) && to in Hold(S())
               && Hold(S())[to] == At(To(l, work))
      modifies `turn, `lh, `holder, `waiting, `changed, `work, cache
      ensures Ready() && lh == old(lh) && Moves(old(work), work) && Hold(S()) == old(Hold(S()))
    {
      Move(from, to);
      ghost var w := work;
      Write(to);
      MovesToo(l, old(work), w, work);
    }

    method DropTwo(x: nat, y: nat)
      requires Ready() && !work.stage.Copied? && x in Hold(S()) && y in Hold(S()) && x != y
      modifies `turn, `lh, `holder, `waiting, `changed, `work, cache
      ensures Ready() && lh == old(lh) && work == old(work) && Hold(S()) == old(Hold(S())) - {x, y}
    {
      Drop(x);
      Drop(y);
    }

    /** One round of write_log's loop. */
    method LogBlock(tail: nat) returns (ok: bool)
      requires Ready() && work.stage.Plain? && Hold(S()) == map[] && lh == work.log.lh
      requires work.log.phase.Committing? && work.log.phase.k == tail < |lh|
      modifies `turn, `lh, `holder, `waiting, `changed, `work, cache
      ensures ok ==> Ready() && lh == old(lh) && work.stage.Plain? && Progress(old(work), work, 1) && Hold(S()) == map[]
      ensures ok ==> |lh| < C.NBUF
      ensures !ok ==> Valid() && AllUsed(S()) && (alone ==> |old(lh)| >= C.NBUF)
    {
      JobToLog(l, d, S());
      var to, from := FetchToLog(tail);
      if from == -1 {
        return false;
      }
      LogInto(from, to);
      return true;
    }

    /** The two breads of such a round. */
    method FetchToLog(tail: nat) returns (to: int, from: int)
      requires Ready() && Hold(S()) == map[] && lh == work.log.lh
      requires work.log.phase.Committing? && work.log.phase.k == tail < |lh|
      modifies `turn, `lh, `holder, `waiting, `changed, `work, cache
      ensures Ready() && lh == old(lh) && work == old(work)
      ensures from != -1 ==> 0 <= to < C.NBUF && 0 <= from < C.NBUF && to != from
      ensures from != -1 ==> Hold(S()) == map[to := At(l.start + tail + 1), from := At(lh[tail])] && |lh| < C.NBUF
      ensures from == -1 ==> AllUsed(S()) && (alone ==> |lh| >= C.NBUF)
    {
      JobToLog(l, d, S());
      to, from := BreadTwo(l.start + tail + 1, lh[tail]);
      if from == -1 {
        LogStuck(l, d, S(), to, tail);
      } else {
        LogRoom(l, d, S(), to);
      }
    }

    /** The rest of a round, once both buffers are held. */
    method LogInto(from: nat, to: nat)
      requires Ready() && work.stage.Plain? && Busy(l, work) && NextJob(work).ToLog? && from != to
      requires Hold(S()) == map[to := At(To(l, work)), from := At(From(l, work))]
      modifies `turn, `lh, `holder, `waiting, `changed, `work, cache
      ensures Ready() && lh == old(lh) && work.stage.Plain? && Progress(old(work), work, 1) && Hold(S()) == map[]
    {
      MoveAndWrite(from, to);
      DropTwo(from, to);
    }
  
    /** write_log: the first |lh| block writes of the commit. */
    method WriteLog() returns (ok: bool)
      requires Ready() && work.stage.Plain? && Hold(S()) == map[] && lh == work.log.lh
      requires work.log.phase.Committing? && work.log.phase.k == 0
      modifies `turn, `lh, `holder, `waiting, `changed, `work, cache
      ensures ok ==>
                Ready() && work.stage.Plain? && Hold(S()) == map[] && lh == old(lh) && Progress(old(work), work, |lh|)
      ensures ok ==> |lh| < C.NBUF
      ensures !ok ==> Valid() && AllUsed(S()) && (alone ==> |old(lh)| >= C.NBUF)
    {
      for tail := 0 to |lh|
        invariant Ready() && work.stage.Plain? && Hold(S()) == map[] && lh == old(lh) && Progress(old(work), work, tail)
        invariant tail > 0 ==> |lh| < C.NBUF
      {
        ok := LogBlock(tail);
        if !ok {
          return;
        }
      }
      return true;
    }

    /** One round of install_trans's loop. */
    method InstallBlock(tail: nat, recovering: bool) returns (ok: bool)
      requires Ready() && work.stage.Plain? && Hold(S()) == map[] && lh == List(work) && tail < |lh|
      requires recovering == work.log.phase.Recovering? && work.log.phase.k == if recovering then tail
               else |lh| + 1 + tail
      modifies `turn, `lh, `holder, `waiting, `changed, `work, cache
      ensures ok ==> Ready() && work.stage.Plain? && Hold(S()) == map[] && lh == old(lh) && Progress(old(work), work, 1)
      ensures ok ==> C.NBUF >= 2
      ensures !ok ==> Valid() && AllUsed(S()) && (alone ==> NoRoom(old(work)))
    {
      JobInstall(l, d, S(), tail);
      var lbuf, dbuf := FetchToInstall(tail);
      if dbuf == -1 {
        return false;
      }
      InstallAndDrop(lbuf, dbuf, tail, recovering);
      return true;
    }

    /** The two breads of such a round. */
    method FetchToInstall(tail: nat) returns (lbuf: int, dbuf: int)
      requires Ready() && work.stage.Plain? && Hold(S()) == map[] && lh == List(work) && tail < |lh|
      requires work.log.phase.k == if work.log.phase.Recovering? then tail else |lh| + 1 + tail
      modifies `turn, `lh, `holder, `waiting, `changed, `work, cache
      ensures Ready() && lh == old(lh) && work == old(work)
      ensures dbuf != -1 ==> 0 <= lbuf < C.NBUF && 0 <= dbuf < C.NBUF && lbuf != dbuf
      ensures dbuf != -1 ==> Hold(S()) == map[lbuf := At(l.start + tail + 1), dbuf := At(lh[tail])]
      ensures dbuf == -1 ==> AllUsed(S()) && (alone ==> NoRoom(work))
    {
      JobInstall(l, d, S(), tail);
      lbuf, dbuf := BreadTwo(l.start + tail + 1, lh[tail]);
      if dbuf == -1 {
        InstallStuck(l, d, S(), lbuf, tail);
      }
    }

    /** The rest of a round, once both buffers are held. */
    method InstallAndDrop(lbuf: nat, dbuf: nat, ghost tail: nat, recovering: bool)
      requires Ready() && work.stage.Plain? && Busy(l, work) && NextJob(work) == Install(tail)
      requires recovering == work.log.phase.Recovering? && lbuf != dbuf
      requires Hold(S()) == map[lbuf := At(From(l, work)), dbuf := At(To(l, work))]
      modifies `turn, `lh, `holder, `waiting, `changed, `work, cache
      ensures Ready() && lh == old(lh) && work.stage.Plain? && Progress(old(work), work, 1) && Hold(S()) == map[]
    {
      InstallInto(lbuf, dbuf, tail, recovering);
      DropTwo(lbuf, dbuf);
    }

    /** memmove, bwrite and, unless recovering, bunpin. */
    method InstallInto(lbuf: nat, dbuf: nat, ghost tail: nat, recovering: bool)
      requires Ready() && work.stage.Plain? && Busy(l, work) && NextJob(work) == Install(tail)
      requires recovering == work.log.phase.Recovering?
      requires lbuf in Hold(S()) && Hold(S())[lbuf] == At(From(l, work))
      requires dbuf in Hold(S()) && Hold(S())[dbuf] == At(To(l, work))
      modifies `turn, `lh, `holder, `waiting, `changed, `work, cache
      ensures Ready() && lh == old(lh) && work.stage.Plain? && Progress(old(work), work, 1)
              && Hold(S()) == old(Hold(S()))
    {
      MoveAndWrite(lbuf, dbuf);
      OnwardLast(l, old(work), work, tail);
      if !recovering {
        UnpinHome(dbuf);
      }
    }

    /** install_trans: the next |lh| block writes. */
    method InstallTrans(recovering: bool) returns (ok: bool)
      requires Ready() && work.stage.Plain? && Hold(S()) == map[] && lh == List(work)
      requires recovering == work.log.phase.Recovering? && work.log.phase.k == if recovering then 0 else |lh| + 1
      modifies `turn, `lh, `holder, `waiting, `changed, `work, cache
      ensures ok ==>
                Ready() && work.stage.Plain? && Hold(S()) == map[] && lh == old(lh) && Progress(old(work), work, |lh|)
      ensures ok && lh != [] ==> C.NBUF >= 2
      ensures !ok ==> Valid() && AllUsed(S()) && old(lh) != [] && (alone ==> NoRoom(old(work)))
    {
      for tail := 0 to |lh|
        invariant Ready() && work.stage.Plain? && Hold(S()) == map[] && lh == old(lh) && Progress(old(work), work, tail)
        invariant tail > 0 ==> C.NBUF >= 2
      {
        ok := InstallBlock(tail, recovering);
        if !ok {
          return;
        }
      }
      return true;
    }

    /** write_head. */
    method WriteHead() returns (ok: bool)
      requires Ready() && work.stage.Plain? && Hold(S()) == map[] && Busy(l, work) && NextJob(work) == Head(lh)
      modifies `turn, `lh, `holder, `waiting, `changed, `work, cache
      ensures ok ==> Ready() && work.stage.Plain? && Hold(S()) == map[] && lh == old(lh) && Progress(old(work), work, 1)
      ensures !ok ==> Valid() && AllUsed(S()) && (alone ==> Pending(old(work)) >= C.NBUF)
    {
      HeaderInside(l, d, S());
      var b := Bread(l.start);
      if b == -1 {
        Crammed(l, d, S());
        return false;
      }
      FillAndWrite(b);
      Drop(b);
      return true;
    }

    method FillAndWrite(b: nat)
      requires Ready() && work.stage.Plain? && Busy(l, work) && NextJob(work) == Head(lh)
      requires b in Hold(S()) && Hold(S())[b] == At(l.start)
      modifies `turn, `lh, `holder, `waiting, `changed, `work, cache
      ensures Ready() && lh == old(lh) && Moves(old(work), work) && Hold(S()) == old(Hold(S()))
    {
      PutHead(b);
      ghost var w := work;
      Write(b);
      MovesToo(l, old(work), w, work);
    }

    /** Filling in the header, among other processes. */
    method PutHead(b: nat)
      requires Ready() && work.stage.Plain? && Busy(l, work) && NextJob(work) == Head(lh)
      requires b in Hold(S()) && Hold(S())[b] == At(l.start)
      modifies `turn, `lh, `holder, `waiting, `changed, `work, cache
      ensures Ready() && lh == old(lh) && Copies(l, old(work), work) && Hold(S()) == old(Hold(S()))
    {
      Meanwhile();
      ghost var s := S();
      FillHead(b);
      CopiesNow(l, old(work));
      WorkMine(l, s, S(), Copy(b, b));
    }
  
    /** The last step of a commit or a recovery. */
    method Finished()
      requires Ready() && Enabled(l, S(), Finish)
      modifies `turn, `lh, `holder, `waiting, `changed, `work
      ensures Took(Finish) && lh == old(lh) && Hold(S()) == old(Hold(S()))
      ensures work.log.lh == [] && work.log.phase.Running? && work.log.journal == old(work).log.journal
    {
      ReachedShape(l, d, S());
      FinishLog(l, work.log, DoneEvent(work));
      work := work.(log := P.Next(l, work.log, DoneEvent(work)));
      Advance(l, d, old(S()), Finish, S(), alone);
      WorkMine(l, old(S()), S(), Finish);
    }

    /** read_head's loop. */
    static method Listed(h: seq<nat>) returns (bs: seq<nat>)
      requires 0 < |h| && h[0] < |h|
      ensures bs == h[1..1 + h[0]]
    {
      bs := [];
      for i := 0 to h[0]
        invariant bs == h[1..1 + i]
      {
        bs := bs + [h[1 + i]];
      }
    }

    method TakeHead(b: nat)
      requires Ready() && work.stage.Unread? && b in Hold(S()) && Hold(S())[b] == At(l.start)
      modifies `turn, `lh, `holder, `waiting, `changed, `work, cache
      ensures Ready() && work.stage.Plain? && lh == work.head && work.log == old(work.log)
              && Hold(S()) == old(Hold(S()))
    {
      Meanwhile();
      ghost var s := S();
      CopyHead(b);
      WorkMine(l, s, S(), ReadHead(b));
    }

    method CopyHead(b: nat)
      requires Valid() && Enabled(l, S(), ReadHead(b))
      modifies `lh, `work
      ensures Took(ReadHead(b)) && work.stage.Plain? && lh == work.head && work.log == old(work.log)
    {
      ReachedShape(l, d, S());
      HeadFits(l, d, S(), b);
      lh := Listed(cache.bufs[b].data);
      work := work.(head := lh, stage := Plain);
      Advance(l, d, old(S()), ReadHead(b), S(), alone);
    }

    /** read_head. */
    method FetchHead() returns (ok: bool)
      requires Ready() && work.stage.Unread? && Hold(S()) == map[]
      modifies `turn, `lh, `holder, `waiting, `changed, `work, cache
      ensures ok ==> Ready() && work.stage.Plain? && lh == work.head && work.log == old(work.log) && Hold(S()) == map[]
      ensures !ok ==> Valid() && AllUsed(S()) && !alone
    {
      HeaderInside(l, d, S());
      var b := Bread(l.start);
      if b == -1 {
        Crammed(l, d, S());
        NothingLogged(l, d, S());
        return false;
      }
      TakeHead(b);
      Drop(b);
      return true;
    }

    /** The common tail of commit and recovery: install, then clear the header. */
    method InstallAndClear(recovering: bool) returns (ok: bool)
      requires Ready() && work.stage.Plain? && Hold(S()) == map[] && lh == List(work) && (recovering || lh != [])
      requires recovering == work.log.phase.Recovering? && work.log.phase.k == if recovering then 0 else |lh| + 1
      modifies `turn, `lh, `holder, `waiting, `changed, `work, cache
      ensures ok ==> Emptied(old(work.log)) && (old(lh) == [] || C.NBUF >= 2)
      ensures !ok ==> Valid() && AllUsed(S()) && (alone ==> old(lh) != [] && NoRoom(old(work)))
    {
      ok := InstallTrans(recovering);
      if !ok {
        return;
      }
      ClearJob(l, d, S());
      AllInstalled(l, d, S());
      lh := [];
      ok := WriteHead();
      if !ok {
        return;
      }
      FinishJob(l, d, S());
      Finished();
    }

    method Recover() returns (ok: bool)
      requires Ready() && work.stage.Unread? && Hold(S()) == map[]
      modifies `turn, `lh, `holder, `waiting, `changed, `work, cache
      ensures ok ==> Emptied(old(work.log)) && (C.NBUF >= 2 || HeadList(l, old(work)) == [])
      ensures !ok ==> Valid() && AllUsed(S()) && (alone ==> C.NBUF < 2 && HeadList(l, old(work)) != [])
    {
      WorkOk(l, d, S());
      ok := FetchHead();
      if ok {
        HeadIs(l, d, S());
        ok := InstallAndClear(true);
      }
    }

    /** recover_from_log: afterwards the log is empty and in use. It fails, which is a panic in
        bget, only with every buffer in use. Alone, it succeeds if and only if there are two
        buffers or nothing to install. */
    method RecoverFromLog() returns (ok: bool)
      requires Ready() && work.stage.Unread? && Hold(S()) == map[] && !alone
      modifies this, cache
      ensures ok ==> Emptied(old(work.log)) && (C.NBUF >= 2 || HeadList(l, old(work)) == [])
      ensures !ok ==> Valid() && AllUsed(S())
      ensures old(Silent() && Alone(S())) ==> (ok <==> C.NBUF >= 2 || HeadList(l, old(work)) == [])
      ensures !alone
    {
      AloneIs(S(), DEPTH);
      alone := Silent() && Alone(S());
      ok := Recover();
      alone := false;
    }

    method CommitLog() returns (ok: bool)
      requires Ready() && work.stage.Plain? && Hold(S()) == map[] && lh == work.log.lh
      requires work.log.phase.Committing? && work.log.phase.k == 0
      modifies `turn, `lh, `holder, `waiting, `changed, `work, cache
      ensures ok ==> Emptied(old(work.log)) && |old(lh)| < C.NBUF
      ensures !ok ==> Valid() && AllUsed(S()) && (alone ==> |old(lh)| >= C.NBUF)
    {
      if |lh| == 0 {
        Finished();
        return true;
      }
      ok := WriteLog();
      if ok {
        HeadJob(l, work);
        ok := WriteHead();
        if ok {
          ok := InstallAndClear(false);
        }
      }
    }

    /** commit: write the log, the header, the home blocks and the cleared header. It fails,
        which is a panic in bget, only with every buffer in use, and always when as many blocks
        are logged as there are buffers. Alone, it succeeds if and only if fewer are logged. */
    method Commit() returns (ok: bool)
      requires Ready() && work.stage.Plain? && Hold(S()) == map[] && lh == work.log.lh && !alone
      requires work.log.phase.Committing? && work.log.phase.k == 0
      modifies this, cache
      ensures ok ==> Emptied(old(work.log)) && |old(lh)| < C.NBUF
      ensures !ok ==> Valid() && AllUsed(S())
      ensures old(Silent() && Alone(S())) ==> (ok <==> |old(lh)| < C.NBUF)
      ensures !alone
    {
      AloneIs(S(), DEPTH);
      alone := Silent() && Alone(S());
      ok := CommitLog();
      alone := false;
    }
  }

  lemma {:induction false} BlockThere(l: Layout, d: Disk, s: Sys, b: nat)
    requires Reached(l, d, s, DEPTH) && b < l.size
    ensures At(b) in s.m.k.disk
  {
    ReachedInv(l, d, s);
    assert Agree(l, s, b);
  }

  lemma {:induction false} NotHeld(s: Sys, x: nat)
    requires Shaped(s) && x < C.NBUF && C.Addr(s.m.bufs[x]) !in Hold(s).Values
    ensures x !in Hold(s)
  {
  }

  lemma {:induction false} ReachedShape(l: Layout, d: Disk, s: Sys)
    requires Reached(l, d, s, DEPTH)
    ensures P.Shape(l, s.work.log) && Shaped(s)
  {
    ReachedInv(l, d, s);
  }

  lemma {:induction false} HeaderInside(l: Layout, d: Disk, s: Sys)
    requires Reached(l, d, s, DEPTH)
    ensures l.start < l.size
  {
    ReachedShape(l, d, s);
  }

  lemma {:induction false} LogJob(l: Layout, s: Work)
    requires P.Shape(l, s.log) && s.log.phase.Committing? && s.log.phase.k < |s.log.lh|
    ensures Busy(l, s) && NextJob(s) == ToLog(s.log.phase.k) && !l.Home(To(l, s)) && l.Home(From(l, s))
    ensures To(l, s) == l.start + s.log.phase.k + 1 < l.size && From(l, s) == s.log.lh[s.log.phase.k]
  {
  }

  /** write_log's rounds are `LogProtocol`'s first writes. */
  lemma {:induction false} JobToLog(l: Layout, d: Disk, s: Sys)
    requires Reached(l, d, s, DEPTH) && s.work.log.phase.Committing? && s.work.log.phase.k < |s.work.log.lh|
    ensures Busy(l, s.work) && NextJob(s.work).ToLog? && To(l, s.work) != From(l, s.work) < l.size
    ensures To(l, s.work) == l.start + s.work.log.phase.k + 1 < l.size
    ensures From(l, s.work) == s.work.log.lh[s.work.log.phase.k]
  {
    ReachedShape(l, d, s);
    LogJob(l, s.work);
  }

  /** The log has done `k` more block writes. */
  predicate Progress(s: Work, t: Work, k: nat) {
    && t.log.lh == s.log.lh && t.head == s.head && t.log.journal == s.log.journal
    && match s.log.phase {
         case Running => false
         case Committing(j, base) => t.log.phase == P.Committing(j + k, base)
         case Recovering(j, base) => t.log.phase == P.Recovering(j + k, base)
       }
  }

  lemma {:induction false} WorkOk(l: Layout, d: Disk, s: Sys)
    requires Reached(l, d, s, DEPTH)
    ensures Facts(l, s.work.log) && StageOk(l, s.work)
  {
    ReachedInv(l, d, s);
  }

  lemma {:induction false} CommitInstall(l: Layout, s: Work, tail: nat)
    requires P.Shape(l, s.log) && s.log.phase.Committing? && tail < |s.log.lh| && s.log.phase.k == |s.log.lh| + 1 + tail
    ensures Busy(l, s) && NextJob(s) == Install(tail) && l.Home(List(s)[tail])
  {
  }

  lemma {:induction false} RecoverInstall(l: Layout, s: Work, tail: nat)
    requires P.Shape(l, s.log) && s.log.phase.Recovering? && s.head == l.Header(s.log.phase.base) && tail < |s.head|
    requires s.log.phase.k == tail
    ensures Busy(l, s) && NextJob(s) == Install(tail) && l.Home(List(s)[tail])
  {
  }

  /** install_trans's rounds are block writes of a commit or of a recovery. */
  lemma {:induction false} JobInstall(l: Layout, d: Disk, s: Sys, tail: nat)
    requires Reached(l, d, s, DEPTH) && !s.work.log.phase.Running? && tail < |List(s.work)| && s.work.stage.Plain?
    requires s.work.log.phase.k == if s.work.log.phase.Recovering? then tail else |s.work.log.lh| + 1 + tail
    ensures Busy(l, s.work) && NextJob(s.work) == Install(tail) && To(l, s.work) == List(s.work)[tail] < l.size
    ensures From(l, s.work) == l.start + tail + 1 < l.size && l.start + tail + 1 != List(s.work)[tail]
  {
    ReachedShape(l, d, s);
    if s.work.log.phase.Recovering? {
      HeadIs(l, d, s);
      RecoverInstall(l, s.work, tail);
    } else {
      CommitInstall(l, s.work, tail);
    }
    ListFits(l, d, s);
  }

  lemma {:induction false} ListFits(l: Layout, d: Disk, s: Sys)
    requires Reached(l, d, s, DEPTH) && s.work.stage.Plain?
    ensures |List(s.work)| <= LOGBLOCKS && l.Valid()
  {
    WorkOk(l, d, s);
  }

  /** One block write: the log goes on, and an installed block waits to be unpinned. */
  predicate Moves(s: Work, t: Work) {
    && Progress(s, t, 1)
    && (t.stage == if NextJob(s).Install? && s.log.phase.Committing? then Written else Plain)
  }

  /** The log has copied what it is about to write. */
  ghost predicate Copies(l: Layout, s: Work, t: Work) {
    t == s.(stage := Copied) && Busy(l, t) && NextJob(t) == NextJob(s) && To(l, t) == To(l, s)
  }

  lemma {:induction false} CopiesNow(l: Layout, s: Work)
    requires s.stage.Plain? && Busy(l, s)
    ensures Copies(l, s, s.(stage := Copied))
  {
    SameJob(l, s);
  }

  lemma {:induction false} MovesToo(l: Layout, s: Work, w: Work, t: Work)
    requires Copies(l, s, w) && Moves(w, t)
    ensures Moves(s, t)
  {
  }

  lemma {:induction false} WroteMoves(l: Layout, d: Disk, s: Sys)
    requires Reached(l, d, s, DEPTH) && Busy(l, s.work)
    ensures P.Shape(l, s.work.log) && Moves(s.work, Wrote(l, s.work))
  {
    ReachedShape(l, d, s);
    WroteWork(l, s.work);
  }

  lemma {:induction false} OnwardLast(l: Layout, s: Work, t: Work, tail: nat)
    requires NextJob(s) == Install(tail) && Moves(s, t)
    ensures s.log.phase.Committing? ==> Last(t) == To(l, s)
  {
  }

  /** The header on disk lists at most LOGBLOCKS blocks. */
  lemma {:induction false} HeadFits(l: Layout, d: Disk, s: Sys, b: nat)
    requires Reached(l, d, s, DEPTH) && Shaped(s) && Enabled(l, s, ReadHead(b))
    ensures |s.m.bufs[b].data| == WORDS && s.m.bufs[b].data[0] <= LOGBLOCKS
  {
    ReachedInv(l, d, s);
    HeadData(l, s, b);
  }

  /** Recovery works on the header that is on disk. */
  lemma {:induction false} HeadIs(l: Layout, d: Disk, s: Sys)
    requires Reached(l, d, s, DEPTH) && s.work.stage.Plain? && s.work.log.phase.Recovering?
    ensures l.Wf(s.work.log.phase.base) && s.work.head == l.Header(s.work.log.phase.base)
  {
    WorkOk(l, d, s);
  }

  /** What is left after installing is clearing the header. */
  lemma {:induction false} ClearJob(l: Layout, d: Disk, s: Sys)
    requires Reached(l, d, s, DEPTH) && s.work.stage.Plain? && !s.work.log.phase.Running?
    requires s.work.log.phase.Committing? ==> s.work.log.lh != []
    requires var n := |List(s.work)|; s.work.log.phase.k == if s.work.log.phase.Recovering? then n else 2 * n + 1
    ensures Busy(l, s.work) && NextJob(s.work) == Head([])
  {
    if s.work.log.phase.Recovering? {
      HeadIs(l, d, s);
    }
  }

  lemma {:induction false} FinishJob(l: Layout, d: Disk, s: Sys)
    requires Reached(l, d, s, DEPTH) && s.work.stage.Plain? && !s.work.log.phase.Running?
    requires var n := |List(s.work)|; s.work.log.phase.k == if s.work.log.phase.Recovering? then n + 1 else 2 * n + 2
    ensures P.Enabled(l, s.work.log, DoneEvent(s.work))
  {
    if s.work.log.phase.Recovering? {
      HeadIs(l, d, s);
    }
  }

  lemma {:induction false} HeadJob(l: Layout, s: Work)
    requires s.log.phase.Committing? && s.log.phase.k == |s.log.lh| && s.log.lh != []
    ensures Busy(l, s) && NextJob(s) == Head(s.log.lh)
  {
  }

  /** Once the log is empty and in use, every logged write is committed: a crash from now on
      keeps all of them. */
  lemma {:induction false} EmptyLogCommitted(l: Layout, d: Disk, s: Sys)
    requires Reached(l, d, s, DEPTH) && s.work.log.phase.Running? && s.work.log.lh == []
    ensures s.work.log.committed == |s.work.log.journal|
  {
    var states, steps := ReachedRun(l, d, s, DEPTH);
    RunInv(l, d, states, steps, |steps|);
    P.ReachableInv(l, d, s.work.log);
  }

  /** A set that maps one to one into another is no larger. */
  lemma {:induction false} OneToOne(a: set<nat>, b: set<nat>, f: map<nat, nat>)
    requires (forall x :: x in a ==> x in f && f[x] in b) && forall x, y :: x in a && y in a && f[x] == f[y] ==> x == y
    ensures |a| <= |b|
    decreases |a|
  {
    if x :| x in a {
      OneToOne(a - {x}, b - {f[x]}, f);
    }
  }

  function Upto(n: nat): (r: set<nat>)
    ensures |r| == n && forall i :: i in r <==> 0 <= i < n
  {
    if n == 0 then {} else Upto(n - 1) + {n - 1}
  }

  lemma {:induction false} Distinct(s: seq<nat>, n: nat) returns (r: set<nat>)
    requires n <= |s| && forall i, j :: 0 <= i < j < |s| ==> s[i] != s[j]
    ensures |r| == n && (forall i :: 0 <= i < n ==> s[i] in r)
    ensures forall x :: x in r ==> exists i :: 0 <= i < n && s[i] == x
    decreases n
  {
    if n == 0 {
      r := {};
    } else {
      var q := Distinct(s, n - 1);
      r := q + {s[n - 1]};
      assert s[n - 1] !in q;
    }
  }

  /** The blocks still pinned. */
  lemma {:induction false} PendingSet(l: Layout, s: Work) returns (r: set<nat>)
    requires Facts(l, s.log)
    ensures |r| == Pending(s) && forall x :: x in r <==> Unsaved(s, At(x))
  {
    var rest := s.log.lh[Done(s)..];
    assert forall i, j :: 0 <= i < j < |rest| ==> rest[i] != rest[j];
    r := Distinct(rest, |rest|);
  }

  /** Pinned blocks are in different buffers. A buffer with another block in it is one more. */
  lemma {:induction false} Crowded(l: Layout, s: Sys, x: nat)
    requires Inv(l, s) && x < C.NBUF && !Unsaved(s.work, C.Addr(s.m.bufs[x]))
    ensures Pending(s.work) < C.NBUF
  {
    var r := PendingSet(l, s.work);
    forall b | b in r
      ensures At(b) in s.m.k.at && s.m.k.at[At(b)] < C.NBUF && C.Addr(s.m.bufs[s.m.k.at[At(b)]]) == At(b)
    {
      PinnedOnce(l, s, At(b));
    }
    var f := map b | b in r :: s.m.k.at[At(b)];
    OneToOne(r, Upto(C.NBUF) - {x}, f);
  }

  /** A buffer that only its pin keeps in use has a pinned block. */
  lemma {:induction false} UsedByPin(l: Layout, s: Sys, b: nat)
    requires Inv(l, s) && b < C.NBUF && s.m.bufs[b].refcnt != 0 && !Waits(s, b) && b !in Hold(s)
    requires !s.holder[b].Proc? && s.waiting[b] <= {Kernel}
    ensures s.m.bufs[b].dev == DEV != 0 && Unsaved(s.work, At(s.m.bufs[b].blockno))
  {
    assert BufInv(l, s, b) && C.BufOk(s.m.k, s.m.bufs[b], b);
    assert s.waiting[b] == {};
  }

  /** If every buffer is in use, and by no process, the pinned blocks and the buffers that the
      log holds use them all. */
  lemma {:induction false} UsedUp(l: Layout, s: Sys)
    requires Inv(l, s) && AllUsed(s) && Alone(s) && forall b :: 0 <= b < C.NBUF ==> !Waits(s, b)
    ensures Pending(s.work) + |Hold(s)| >= C.NBUF
  {
    var r := PendingSet(l, s.work);
    var free := Upto(C.NBUF) - Hold(s).Keys;
    var f := map b | b in free :: s.m.bufs[b].blockno;
    forall b | b in free ensures f[b] in r && C.Addr(s.m.bufs[b]) == At(f[b]) {
      UsedByPin(l, s, b);
    }
    forall x, y | x in free && y in free && f[x] == f[y] ensures x == y {
      C.CachedOnce(s.m.bufs, s.m.k, x, y);
    }
    OneToOne(free, r, f);
    assert |free| >= C.NBUF - |Hold(s).Keys|;
  }

  lemma {:induction false} Crammed(l: Layout, d: Disk, s: Sys)
    requires Reached(l, d, s, DEPTH) && Shaped(s) && AllUsed(s) && forall b :: 0 <= b < C.NBUF ==> !Waits(s, b)
    ensures AloneAt(s, DEPTH) ==> Pending(s.work) + |Hold(s)| >= C.NBUF
  {
    ReachedInv(l, d, s);
    AloneIs(s, DEPTH);
    if Alone(s) {
      UsedUp(l, s);
    }
  }

  /** A pinned block is cached. */
  lemma {:induction false} PinnedCached(l: Layout, d: Disk, s: Sys, i: nat)
    requires Reached(l, d, s, DEPTH) && Done(s.work) <= i < |s.work.log.lh|
    ensures At(s.work.log.lh[i]) in s.m.k.at
  {
    ReachedInv(l, d, s);
    assert s.work.log.lh[Done(s.work)..][i - Done(s.work)] == s.work.log.lh[i];
    UnsavedCached(s, At(s.work.log.lh[i]));
  }

  lemma {:induction false} LogStuck(l: Layout, d: Disk, s: Sys, x: int, tail: nat)
    requires Reached(l, d, s, DEPTH) && Shaped(s) && AllUsed(s) && forall b :: 0 <= b < C.NBUF ==> !Waits(s, b)
    requires s.work.log.phase.Committing? && s.work.log.phase.k == tail < |s.work.log.lh|
    requires Stuck(s, x, l.start + tail + 1, s.work.log.lh[tail])
    ensures AloneAt(s, DEPTH) ==> |s.work.log.lh| >= C.NBUF
  {
    PinnedCached(l, d, s, tail);
    Crammed(l, d, s);
  }

  lemma {:induction false} LogRoom(l: Layout, d: Disk, s: Sys, x: nat)
    requires Reached(l, d, s, DEPTH) && Shaped(s) && s.work.log.phase.Committing?
             && s.work.log.phase.k < |s.work.log.lh|
    requires x in Hold(s) && Hold(s)[x] == At(l.start + s.work.log.phase.k + 1)
    ensures |s.work.log.lh| < C.NBUF
  {
    ReachedInv(l, d, s);
    NotLogged(l, s.work, l.start + s.work.log.phase.k + 1);
    Crowded(l, s, x);
  }

  lemma {:induction false} InstallStuck(l: Layout, d: Disk, s: Sys, x: int, tail: nat)
    requires Reached(l, d, s, DEPTH) && Shaped(s) && AllUsed(s) && forall b :: 0 <= b < C.NBUF ==> !Waits(s, b)
    requires !s.work.log.phase.Running? && s.work.stage.Plain? && tail < |List(s.work)|
    requires s.work.log.phase.k == if s.work.log.phase.Recovering? then tail else |s.work.log.lh| + 1 + tail
    requires Stuck(s, x, l.start + tail + 1, List(s.work)[tail])
    ensures AloneAt(s, DEPTH) ==> NoRoom(s.work)
  {
    ReachedShape(l, d, s);
    Crammed(l, d, s);
    if s.work.log.phase.Committing? {
      PinnedCached(l, d, s, tail);
    }
  }

  lemma {:induction false} NothingLogged(l: Layout, d: Disk, s: Sys)
    requires Reached(l, d, s, DEPTH) && s.work.stage.Unread?
    ensures Pending(s.work) == 0
  {
    WorkOk(l, d, s);
  }

  lemma {:induction false} AllInstalled(l: Layout, d: Disk, s: Sys)
    requires Reached(l, d, s, DEPTH) && s.work.stage.Plain? && !s.work.log.phase.Running?
    requires s.work.log.phase.Committing? ==> s.work.log.phase.k == 2 * |s.work.log.lh| + 1
    ensures Pending(s.work) == 0
  {
    ReachedShape(l, d, s);
  }
}
