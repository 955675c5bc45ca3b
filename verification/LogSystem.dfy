/** The in-memory log of kernel/log.c and its critical sections, working in place on the
    disk and on the buffers it keeps pinned in the cache. */
module LogSystem {
  import opened Params
  import opened LogDisk

  /** The header after `log_write` of block `b`: absorbed when already listed. */
  function Absorb(lh: seq<nat>, b: nat): (r: seq<nat>)
    ensures b in r && (forall x :: x in lh ==> x in r) && (forall x :: x in r ==> x in lh || x == b)
    ensures |r| == if b in lh then |lh| else |lh| + 1
  {
    if b in lh then lh else lh + [b]
  }

  /** `begin_op` admits an operation only when no commit runs and MAXOPBLOCKS blocks remain
      for it and for each outstanding operation. */
  predicate MayBegin(n: nat, outstanding: nat, committing: bool) {
    !committing && n + (outstanding + 1) * MAXOPBLOCKS <= LOGBLOCKS
  }

  ghost predicate NoDup(s: seq<nat>) {
    forall i, j :: 0 <= i < j < |s| ==> s[i] != s[j]
  }

  /** The modified contents of the logged blocks, in log order. */
  function Values(pinned: map<nat, Block>, bs: seq<nat>): (vs: seq<Block>)
    requires forall b :: b in bs ==> b in pinned
    ensures |vs| == |bs| && forall i :: 0 <= i < |bs| ==> vs[i] == pinned[bs[i]]
  {
    seq(|bs|, i requires 0 <= i < |bs| => pinned[bs[i]])
  }

  lemma Unpinned(before: map<nat, Block>, after: map<nat, Block>, bs: seq<nat>)
    requires forall b :: b in before ==> b in bs
    requires after.Keys <= before.Keys
    requires forall i :: 0 <= i < |bs| ==> bs[i] !in after
    ensures after == map[]
  {
    assert forall b :: b in after.Keys ==> b in before.Keys;
  }

  lemma Concat<T>(h: seq<T>, a: seq<T>, b: seq<T>)
    ensures h + a + b == h + (a + b)
  {
  }

  lemma Concat3<T>(h: seq<T>, a: seq<T>, b: seq<T>, c: seq<T>)
    ensures h + a + b + c == h + (a + b + c)
  {
  }

  datatype Outcome = Done | Wait | Panic(msg: string)

  class Log {
    const l: Layout
    var disk: Disk
    var outstanding: int
    var committing: bool
    var ncommit: nat
    var n: nat              // log.lh.n
    var block: seq<nat>     // log.lh.block[LOGBLOCKS]
    var pinned: map<nat, Block>  // contents of logged blocks, held in the buffer cache
    ghost var history: seq<Disk> // the disk after every block write since boot

    ghost predicate Valid()
      reads this
    {
      && l.Wf(disk)
      && |block| == LOGBLOCKS && n <= LOGBLOCKS
      && l.AllHome(block[..n]) && NoDup(block[..n])
      && (forall b :: b in pinned <==> b in block[..n])
    }

    /** The contents `bread` returns: the pinned copy if there is one, else the disk's. */
    function Bread(b: nat): Block
      requires 0 <= b < |disk|
      reads this
    {
      if b in pinned then pinned[b] else disk[b]
    }

    method Bwrite(b: nat, data: Block)
      requires 0 <= b < |disk|
      modifies this`disk, this`history
      ensures disk == old(disk)[b := data]
      ensures history == old(history) + [disk]
    {
      disk := disk[b := data];
      history := history + [disk];
    }

    method WriteHead()
      requires l.Valid() && |disk| == l.size && |block| == LOGBLOCKS && n <= LOGBLOCKS
      requires l.start !in pinned
      modifies this`disk, this`history
      ensures disk == old(disk)[l.start := HeadWith(old(disk[l.start]), block[..n])]
      ensures history == old(history) + [disk]
    {
      var h: Block := Bread(l.start);
      var hb: seq<nat> := h[0 := n];
      for i := 0 to n
        invariant |hb| == WORDS && hb[0] == n
        invariant hb[1..1 + i] == block[..i]
        invariant hb[1 + i..] == h[1 + i..]
      {
        hb := hb[1 + i := block[i]];
      }
      assert hb == [n] + hb[1..1 + n] + hb[1 + n..];
      Bwrite(l.start, hb);
    }

    method ReadHead()
      requires l.Wf(disk) && |block| == LOGBLOCKS && l.start !in pinned
      modifies this`n, this`block
      ensures |block| == LOGBLOCKS && n == |l.Header(disk)| && block[..n] == l.Header(disk)
    {
      var h := Bread(l.start);
      n := h[0];
      for i := 0 to n
        invariant |block| == LOGBLOCKS && n == |l.Header(disk)|
        invariant block[..i] == l.Header(disk)[..i]
      {
        block := block[i := h[1 + i]];
      }
    }

    /** Copies the logged blocks home, one write each, unpinning them unless recovering. */
    method InstallTrans(recovering: bool)
      requires l.Wf(disk) && |block| == LOGBLOCKS && n == |l.Header(disk)| && block[..n] == l.Header(disk)
      requires forall b :: b in pinned ==> l.Home(b)
      modifies this`disk, this`history, this`pinned
      ensures disk == Installed(l, old(disk), n)
      ensures history == old(history) + InstallTrace(l, old(disk), n)
      ensures recovering ==> pinned == old(pinned)
      ensures !recovering ==> forall i :: 0 <= i < n ==> l.Header(old(disk))[i] !in pinned
      ensures pinned.Keys <= old(pinned.Keys)
    {
      ghost var d := disk;
      for tail := 0 to n
        invariant disk == Installed(l, d, tail)
        invariant history == old(history) + InstallTrace(l, d, tail)
        invariant recovering ==> pinned == old(pinned)
        invariant !recovering ==> forall i :: 0 <= i < tail ==> l.Header(d)[i] !in pinned
        invariant pinned.Keys <= old(pinned.Keys)
      {
        var data := Bread(l.start + tail + 1);
        assert data == d[l.start + tail + 1];
        assert block[tail] == l.Header(d)[tail] by { assert block[tail] == block[..n][tail]; }
        Bwrite(block[tail], data);
        if !recovering {
          pinned := pinned - {block[tail]};
        }
      }
    }

    /** `install_trans`, then the cleared header: the common tail of commit and recovery. */
    method InstallAndClear(recovering: bool)
      requires l.Wf(disk) && |block| == LOGBLOCKS && n == |l.Header(disk)| && block[..n] == l.Header(disk)
      requires forall b :: b in pinned ==> l.Home(b) && b in l.Header(disk)
      requires recovering ==> pinned == map[]
      modifies this`disk, this`history, this`pinned, this`n
      ensures n == 0 && pinned == map[]
      ensures disk == Recovered(l, old(disk))
      ensures history == old(history) + RecoverTrace(l, old(disk))
    {
      ghost var d := disk;
      InstallTrans(recovering);
      if !recovering {
        Unpinned(old(pinned), pinned, l.Header(d));
      }
      n := 0;
      assert block[..n] == [];
      WriteHead();
      Concat(old(history), InstallTrace(l, d, |l.Header(d)|), [disk]);
    }

    /** Recovery writes exactly the disks of `RecoverTrace`. */
    method RecoverFromLog()
      requires l.Wf(disk) && |block| == LOGBLOCKS && pinned == map[]
      modifies this`disk, this`history, this`pinned, this`n, this`block
      ensures Valid() && n == 0 && pinned == map[]
      ensures disk == Recovered(l, old(disk))
      ensures history == old(history) + RecoverTrace(l, old(disk))
    {
      ReadHead();
      InstallAndClear(true);
      assert block[..n] == [];
    }

    /** Copies the modified blocks into the log area, one write each. */
    method WriteLog(ghost vals: seq<Block>)
      requires l.Wf(disk) && n == |vals| <= LOGBLOCKS == |block|
      requires forall i :: 0 <= i < n ==> block[i] < |disk| && block[i] in pinned && pinned[block[i]] == vals[i]
      modifies this`disk, this`history
      ensures disk == Logged(l, old(disk), vals, n)
      ensures history == old(history) + LogTrace(l, old(disk), vals, n)
    {
      ghost var d := disk;
      for tail := 0 to n
        invariant disk == Logged(l, d, vals, tail)
        invariant history == old(history) + LogTrace(l, d, vals, tail)
      {
        var data := Bread(block[tail]);
        Bwrite(l.start + tail + 1, data);
      }
    }

    /** A commit of `bs` with contents `vals` writes exactly the disks of `CommitTrace`. */
    method CommitPending(ghost bs: seq<nat>, ghost vals: seq<Block>)
      requires l.Wf(disk) && 0 < n == |vals| <= LOGBLOCKS == |block| && bs == block[..n]
      requires l.AllHome(bs)
      requires forall b :: b in pinned <==> b in bs
      requires forall i :: 0 <= i < n ==> vals[i] == pinned[bs[i]]
      modifies this`disk, this`history, this`pinned, this`n
      ensures n == 0 && pinned == map[]
      ensures disk == Recovered(l, AtCommitPoint(l, old(disk), bs, vals))
      ensures history == old(history) + CommitTrace(l, old(disk), bs, vals)
    {
      forall i | 0 <= i < n ensures l.Home(block[i]) && block[i] in pinned && pinned[block[i]] == vals[i] {
        assert block[i] == bs[i];
      }
      ghost var d := disk;
      WriteLog(vals);
      WriteHead();
      ghost var c := disk;
      InstallAndClear(false);
      Concat3(old(history), LogTrace(l, d, vals, |bs|), [c], RecoverTrace(l, c));
    }

    /** `commit` empties the log, in memory and on disk; by `CommitKeepsViews` it leaves
        `bread` of every home block unchanged. */
    method Commit(ghost bs: seq<nat>, ghost vals: seq<Block>)
      requires Valid() && bs == block[..n] && vals == Values(pinned, bs)
      modifies this`disk, this`history, this`pinned, this`n
      ensures Valid() && n == 0 && pinned == map[]
      ensures history == old(history) + if bs == [] then [] else CommitTrace(l, old(disk), bs, vals)
      ensures disk == if bs == [] then old(disk) else Recovered(l, AtCommitPoint(l, old(disk), bs, vals))
    {
      if n == 0 {
        assert pinned == map[];
        return;
      }
      CommitPending(bs, vals);
      assert block[..n] == [];
    }

    /** Records a modified block. The guard is the source's: a full log panics even when
        the block would be absorbed. */
    method LogWrite(b: nat, data: Block) returns (r: Outcome)
      requires Valid() && l.Home(b)
      modifies this`n, this`block, this`pinned
      ensures Valid()
      ensures r.Done? <==> old(n) < LOGBLOCKS && outstanding >= 1
      ensures r.Done? ==> block[..n] == Absorb(old(block[..n]), b) && pinned == old(pinned)[b := data]
      ensures !r.Done? ==> n == old(n) && block == old(block) && pinned == old(pinned)
    {
      if n >= LOGBLOCKS {
        return Panic("too big a transaction");
      }
      if outstanding < 1 {
        return Panic("log_write outside of trans");
      }
      var i := 0;
      while i < n && block[i] != b
        invariant 0 <= i <= n
        invariant b !in block[..i]
      {
        i := i + 1;
      }
      ghost var lh := block[..n];
      block := block[i := b];
      if i == n {
        n := n + 1;
        assert block[..n] == lh + [b];
      } else {
        assert lh[i] == b && block[..n] == lh;
      }
      pinned := pinned[b := data];
      return Done;
    }

    /** One pass of `begin_op`'s loop: admitted, or told to sleep and try again. */
    method BeginOp() returns (r: Outcome)
      requires outstanding >= 0
      modifies this`outstanding
      ensures r.Done? <==> MayBegin(n, old(outstanding), committing)
      ensures !r.Done? ==> r.Wait?
      ensures outstanding == old(outstanding) + (if r.Done? then 1 else 0)
    {
      if committing {
        return Wait;
      } else if n + (outstanding + 1) * MAXOPBLOCKS > LOGBLOCKS {
        return Wait;
      } else {
        outstanding := outstanding + 1;
        return Done;
      }
    }

    /** The first critical section of `end_op`: the last operation out starts the commit. */
    method EndOp() returns (r: Outcome, doCommit: bool)
      modifies this`outstanding, this`committing
      ensures outstanding == old(outstanding) - 1
      ensures r.Panic? <==> old(committing)
      ensures !r.Wait?
      ensures doCommit <==> r.Done? && outstanding == 0
      ensures committing == (old(committing) || doCommit)
    {
      doCommit := false;
      outstanding := outstanding - 1;
      if committing {
        return Panic("log.committing"), false;
      }
      if outstanding == 0 {
        doCommit := true;
        committing := true;
      }
      return Done, doCommit;
    }
  }

  /** With distinct block numbers, each logged block ends with its own value and every
      other block is untouched. */
  lemma {:induction false} UpdatedPointwise(l: Layout, d: Disk, bs: seq<nat>, vals: seq<Block>, b: nat)
    requires |d| == l.size && |bs| == |vals| && l.AllHome(bs) && NoDup(bs) && l.Home(b)
    ensures b !in bs ==> Updated(l, d, bs, vals)[b] == d[b]
    ensures forall i :: 0 <= i < |bs| && bs[i] == b ==> Updated(l, d, bs, vals)[b] == vals[i]
    decreases |bs|
  {
    if bs != [] {
      var n := |bs| - 1;
      UpdatedPointwise(l, d, bs[..n], vals[..n], b);
      assert bs == bs[..n] + [bs[n]];
    }
  }

  /** After a commit the disk alone holds what the pinned buffers and the disk held. */
  lemma {:induction false} CommitKeepsViews(l: Layout, d: Disk, bs: seq<nat>, vals: seq<Block>, pinned: map<nat, Block>)
    requires l.Wf(d) && |bs| == |vals| <= LOGBLOCKS && l.AllHome(bs) && NoDup(bs)
    requires forall b :: b in pinned <==> b in bs
    requires forall i :: 0 <= i < |bs| ==> vals[i] == pinned[bs[i]]
    ensures forall b: nat :: l.Home(b) ==>
              Recovered(l, AtCommitPoint(l, d, bs, vals))[b] == if b in pinned then pinned[b] else d[b]
  {
    CommitPointRecovers(l, d, bs, vals);
    UpdatedIsView(l, d, bs, vals, pinned);
  }

  /** The post-transaction disk is what the pinned buffers over the old disk show. */
  lemma {:induction false} UpdatedIsView(l: Layout, d: Disk, bs: seq<nat>, vals: seq<Block>, pinned: map<nat, Block>)
    requires |d| == l.size && |bs| == |vals| && l.AllHome(bs) && NoDup(bs)
    requires forall b :: b in pinned <==> b in bs
    requires forall i :: 0 <= i < |bs| ==> vals[i] == pinned[bs[i]]
    ensures forall b: nat :: l.Home(b) ==>
              Updated(l, d, bs, vals)[b] == if b in pinned then pinned[b] else d[b]
  {
    forall b: nat | l.Home(b)
      ensures Updated(l, d, bs, vals)[b] == if b in pinned then pinned[b] else d[b]
    {
      UpdatedPointwise(l, d, bs, vals, b);
    }
  }
}
