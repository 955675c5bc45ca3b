/** The on-disk redo log of kernel/log.c: commit, recovery, and crashes between any two
    single-block writes. */
module LogDisk {
  import opened Params

  /** A block is a sequence of 32-bit words; the log header occupies the first words. */
  type Block = b: seq<nat> | |b| == WORDS witness seq(WORDS, _ => 0)
  type Disk = seq<Block>

  /** Where the log lives: header at `start`, data in the LOGBLOCKS blocks after it. */
  datatype Layout = Layout(start: nat, size: nat) {

    predicate Valid() { start + LOGBLOCKS < size }

    /** A home block lies on the disk and outside the log area. */
    predicate Home(b: int) {
      0 <= b < size && !(start <= b <= start + LOGBLOCKS)
    }

    predicate AllHome(bs: seq<nat>) {
      forall i :: 0 <= i < |bs| ==> Home(bs[i])
    }

    /** The disk has the right shape and its header names at most LOGBLOCKS home blocks. */
    predicate Wf(d: Disk) {
      && Valid()
      && |d| == size
      && 0 <= d[start][0] <= LOGBLOCKS
      && AllHome(Header(d))
    }

    /** The block numbers listed by the on-disk header. */
    function Header(d: Disk): (bs: seq<nat>)
      requires Valid() && |d| == size && 0 <= d[start][0] <= LOGBLOCKS
      ensures |bs| == d[start][0]
    {
      d[start][1..1 + d[start][0]]
    }

    ghost predicate SameHome(d: Disk, e: Disk)
      requires |d| == |e| == size
    {
      forall b: nat :: Home(b) ==> d[b] == e[b]
    }
  }

  /** The header block after `write_head`: count and numbers replaced, other words kept. */
  function HeadWith(h: Block, bs: seq<nat>): (r: Block)
    requires |bs| <= LOGBLOCKS
    ensures r[0] == |bs| && r[1..1 + |bs|] == bs && r[1 + |bs|..] == h[1 + |bs|..]
  {
    [|bs|] + bs + h[1 + |bs|..]
  }

  // ---------------------------------------------------------------- recovery

  /** The disk after `install_trans` has copied the first `k` logged blocks home. */
  function Installed(l: Layout, d: Disk, k: nat): (e: Disk)
    requires l.Wf(d) && k <= |l.Header(d)|
    ensures l.Wf(e) && e[l.start] == d[l.start]
    ensures forall i :: l.start <= i <= l.start + LOGBLOCKS ==> e[i] == d[i]
  {
    if k == 0 then d
    else Installed(l, d, k - 1)[l.Header(d)[k - 1] := d[l.start + k]]
  }

  /** The disk after the first `k` block writes of `recover_from_log`: one per logged
      block, then the cleared header. */
  function RecoverStep(l: Layout, d: Disk, k: nat): (e: Disk)
    requires l.Wf(d) && k <= |l.Header(d)| + 1
    ensures l.Wf(e)
  {
    if k <= |l.Header(d)| then Installed(l, d, k)
    else Installed(l, d, k - 1)[l.start := HeadWith(d[l.start], [])]
  }

  /** The disk once recovery has run to its end. */
  function Recovered(l: Layout, d: Disk): (e: Disk)
    requires l.Wf(d)
    ensures l.Wf(e) && l.Header(e) == []
  {
    RecoverStep(l, d, |l.Header(d)| + 1)
  }

  /** What a home block holds after installing `k` entries: the last entry naming it wins. */
  function Replay(l: Layout, d: Disk, k: nat, b: nat): Block
    requires l.Wf(d) && k <= |l.Header(d)| && l.Home(b)
  {
    if k == 0 then d[b]
    else if l.Header(d)[k - 1] == b then d[l.start + k]
    else Replay(l, d, k - 1, b)
  }

  lemma {:induction false} InstalledIsReplay(l: Layout, d: Disk, k: nat, b: nat)
    requires l.Wf(d) && k <= |l.Header(d)| && l.Home(b)
    ensures Installed(l, d, k)[b] == Replay(l, d, k, b)
    decreases k
  {
    if k > 0 {
      InstalledIsReplay(l, d, k - 1, b);
    }
  }

  lemma {:induction false} ReplayUntouched(l: Layout, d: Disk, k: nat, b: nat)
    requires l.Wf(d) && k <= |l.Header(d)| && l.Home(b) && b !in l.Header(d)[..k]
    ensures Replay(l, d, k, b) == d[b]
    decreases k
  {
    if k > 0 {
      assert l.Header(d)[..k - 1] == l.Header(d)[..k][..k - 1];
      ReplayUntouched(l, d, k - 1, b);
    }
  }

  /** Replaying from a half-installed disk gives what replaying from the start gives. */
  lemma {:induction false} ReplayAgain(l: Layout, d: Disk, k: nat, j: nat, b: nat)
    requires l.Wf(d) && k <= |l.Header(d)| && j <= |l.Header(d)| && l.Home(b)
    ensures l.Header(Installed(l, d, k)) == l.Header(d)
    ensures Replay(l, Installed(l, d, k), j, b)
         == if b in l.Header(d)[..j] then Replay(l, d, j, b) else Replay(l, d, k, b)
    decreases j
  {
    var e := Installed(l, d, k);
    assert e[l.start] == d[l.start];
    if j == 0 {
      InstalledIsReplay(l, d, k, b);
    } else {
      assert e[l.start + j] == d[l.start + j];
      assert l.Header(d)[..j] == l.Header(d)[..j - 1] + [l.Header(d)[j - 1]];
      ReplayAgain(l, d, k, j - 1, b);
    }
  }

  /** A crash after any number of recovery writes does not change what recovery leaves in
      the home blocks. */
  lemma {:induction false} RecoveryRestarts(l: Layout, d: Disk, k: nat)
    requires l.Wf(d) && k <= |l.Header(d)| + 1
    ensures l.SameHome(Recovered(l, RecoverStep(l, d, k)), Recovered(l, d))
  {
    var n := |l.Header(d)|;
    if k <= n {
      var e := Installed(l, d, k);
      assert e[l.start] == d[l.start];
      forall b: nat | l.Home(b) ensures Recovered(l, e)[b] == Recovered(l, d)[b] {
        ReplayAgain(l, d, k, n, b);
        InstalledIsReplay(l, e, n, b);
        InstalledIsReplay(l, d, n, b);
        assert l.Header(d)[..n] == l.Header(d);
        if b !in l.Header(d) {
          assert b !in l.Header(d)[..k];
          ReplayUntouched(l, d, k, b);
          ReplayUntouched(l, d, n, b);
        }
      }
    }
  }

  /** The disk after a series of crashes during recovery; `ks[i]` is how many block writes
      the i-th attempt managed. */
  function AfterCrashes(l: Layout, d: Disk, ks: seq<nat>): (e: Disk)
    requires l.Wf(d)
    ensures l.Wf(e)
    decreases |ks|
  {
    if ks == [] then d
    else
      var done := if ks[0] <= |l.Header(d)| then ks[0] else |l.Header(d)| + 1;
      AfterCrashes(l, RecoverStep(l, d, done), ks[1..])
  }

  lemma {:induction false} RecoveryStable(l: Layout, d: Disk, ks: seq<nat>)
    requires l.Wf(d)
    ensures l.SameHome(Recovered(l, AfterCrashes(l, d, ks)), Recovered(l, d))
    decreases |ks|
  {
    if ks != [] {
      var done := if ks[0] <= |l.Header(d)| then ks[0] else |l.Header(d)| + 1;
      RecoveryRestarts(l, d, done);
      RecoveryStable(l, RecoverStep(l, d, done), ks[1..]);
    }
  }

  // ---------------------------------------------------------------- commit

  /** The log area after `write_log` has copied the first `k` modified blocks into it. */
  function Logged(l: Layout, d: Disk, vals: seq<Block>, k: nat): (e: Disk)
    requires l.Wf(d) && k <= |vals| <= LOGBLOCKS
    ensures l.Wf(e) && e[l.start] == d[l.start]
    ensures forall i :: 0 <= i < k ==> e[l.start + 1 + i] == vals[i]
    ensures l.SameHome(e, d)
  {
    if k == 0 then d
    else Logged(l, d, vals, k - 1)[l.start + k := vals[k - 1]]
  }

  /** The disk at the commit point: all data in the log, and the header just written. */
  function AtCommitPoint(l: Layout, d: Disk, bs: seq<nat>, vals: seq<Block>): (e: Disk)
    requires l.Wf(d) && |bs| == |vals| <= LOGBLOCKS && l.AllHome(bs)
    ensures l.Wf(e) && l.Header(e) == bs && l.SameHome(e, d)
    ensures forall i :: 0 <= i < |vals| ==> e[l.start + 1 + i] == vals[i]
  {
    Logged(l, d, vals, |vals|)[l.start := HeadWith(d[l.start], bs)]
  }

  /** The disk after the first `k` block writes of `commit`: n log writes, the header,
      n home writes, the cleared header. */
  function CommitStep(l: Layout, d: Disk, bs: seq<nat>, vals: seq<Block>, k: nat): (e: Disk)
    requires l.Wf(d) && |bs| == |vals| <= LOGBLOCKS && l.AllHome(bs)
    requires k <= 2 * |bs| + 2
    ensures l.Wf(e)
  {
    if k <= |bs| then Logged(l, d, vals, k)
    else RecoverStep(l, AtCommitPoint(l, d, bs, vals), k - |bs| - 1)
  }

  /** The post-transaction disk: every logged block holds its last logged value. */
  function Updated(l: Layout, d: Disk, bs: seq<nat>, vals: seq<Block>): (e: Disk)
    requires |d| == l.size && |bs| == |vals| && l.AllHome(bs)
    ensures |e| == l.size
    decreases |bs|
  {
    if bs == [] then d
    else
      var n := |bs| - 1;
      Updated(l, d, bs[..n], vals[..n])[bs[n] := vals[n]]
  }

  lemma {:induction false} ReplayIsUpdated(l: Layout, c: Disk, d: Disk, bs: seq<nat>, vals: seq<Block>, k: nat, b: nat)
    requires l.Wf(d) && l.Wf(c) && |bs| == |vals| <= LOGBLOCKS && l.AllHome(bs)
    requires l.Header(c) == bs && l.SameHome(c, d)
    requires forall i :: 0 <= i < |vals| ==> c[l.start + 1 + i] == vals[i]
    requires k <= |bs| && l.Home(b)
    ensures Replay(l, c, k, b) == Updated(l, d, bs[..k], vals[..k])[b]
    decreases k
  {
    if k > 0 {
      ReplayIsUpdated(l, c, d, bs, vals, k - 1, b);
      assert bs[..k][..k - 1] == bs[..k - 1] && vals[..k][..k - 1] == vals[..k - 1];
      assert c[l.start + k] == vals[k - 1];
    }
  }

  /** Once the header is on disk, recovery completes the transaction. */
  lemma {:induction false} CommitPointRecovers(l: Layout, d: Disk, bs: seq<nat>, vals: seq<Block>)
    requires l.Wf(d) && |bs| == |vals| <= LOGBLOCKS && l.AllHome(bs)
    ensures l.SameHome(Recovered(l, AtCommitPoint(l, d, bs, vals)), Updated(l, d, bs, vals))
  {
    var c := AtCommitPoint(l, d, bs, vals);
    forall b: nat | l.Home(b) ensures Recovered(l, c)[b] == Updated(l, d, bs, vals)[b] {
      InstalledIsReplay(l, c, |bs|, b);
      ReplayIsUpdated(l, c, d, bs, vals, |bs|, b);
      assert bs[..|bs|] == bs && vals[..|bs|] == vals;
    }
  }

  /** What a single recovery makes of a commit stopped after `k` writes. */
  lemma {:induction false} CommitStepRecovers(l: Layout, d: Disk, bs: seq<nat>, vals: seq<Block>, k: nat)
    requires l.Wf(d) && l.Header(d) == []
    requires |bs| == |vals| <= LOGBLOCKS && l.AllHome(bs)
    requires k <= 2 * |bs| + 2
    ensures l.SameHome(Recovered(l, CommitStep(l, d, bs, vals, k)),
                       if k <= |bs| then d else Updated(l, d, bs, vals))
  {
    if k <= |bs| {
      var e := Logged(l, d, vals, k);
      assert l.Header(e) == l.Header(d);
    } else {
      CommitPointRecovers(l, d, bs, vals);
      RecoveryRestarts(l, AtCommitPoint(l, d, bs, vals), k - |bs| - 1);
    }
  }

  /** Crash atomicity. Whatever single write of `commit` the machine stops after, and
      however many times recovery itself is interrupted, a completed recovery leaves every
      home block as it was before the transaction when the header had not been written,
      and as the transaction left it when it had. */
  lemma {:induction false} CrashAtomicity(
    l: Layout, d: Disk, bs: seq<nat>, vals: seq<Block>, k: nat, ks: seq<nat>)
    requires l.Wf(d) && l.Header(d) == []
    requires |bs| == |vals| <= LOGBLOCKS && l.AllHome(bs)
    requires k <= 2 * |bs| + 2
    ensures var r := Recovered(l, AfterCrashes(l, CommitStep(l, d, bs, vals, k), ks));
            && l.SameHome(r, if k <= |bs| then d else Updated(l, d, bs, vals))
            && l.Header(r) == []
  {
    RecoveryStable(l, CommitStep(l, d, bs, vals, k), ks);
    CommitStepRecovers(l, d, bs, vals, k);
  }

  // ---------------------------------------------------------------- traces

  /** The successive disks written by `write_log`. */
  function LogTrace(l: Layout, d: Disk, vals: seq<Block>, k: nat): seq<Disk>
    requires l.Wf(d) && k <= |vals| <= LOGBLOCKS
  {
    if k == 0 then [] else LogTrace(l, d, vals, k - 1) + [Logged(l, d, vals, k)]
  }

  /** The successive disks written by `install_trans`. */
  function InstallTrace(l: Layout, d: Disk, k: nat): seq<Disk>
    requires l.Wf(d) && k <= |l.Header(d)|
  {
    if k == 0 then [] else InstallTrace(l, d, k - 1) + [Installed(l, d, k)]
  }

  /** The successive disks written by `recover_from_log`. */
  function RecoverTrace(l: Layout, d: Disk): seq<Disk>
    requires l.Wf(d)
  {
    InstallTrace(l, d, |l.Header(d)|) + [Recovered(l, d)]
  }

  /** The successive disks written by `commit`. */
  function CommitTrace(l: Layout, d: Disk, bs: seq<nat>, vals: seq<Block>): seq<Disk>
    requires l.Wf(d) && |bs| == |vals| <= LOGBLOCKS && l.AllHome(bs)
  {
    var c := AtCommitPoint(l, d, bs, vals);
    LogTrace(l, d, vals, |bs|) + [c] + RecoverTrace(l, c)
  }

  lemma {:induction false} LogTraceSteps(l: Layout, d: Disk, vals: seq<Block>, k: nat)
    requires l.Wf(d) && k <= |vals| <= LOGBLOCKS
    ensures |LogTrace(l, d, vals, k)| == k
    ensures forall i :: 0 <= i < k ==> LogTrace(l, d, vals, k)[i] == Logged(l, d, vals, i + 1)
    decreases k
  {
    if k > 0 {
      LogTraceSteps(l, d, vals, k - 1);
    }
  }

  lemma {:induction false} InstallTraceSteps(l: Layout, d: Disk, k: nat)
    requires l.Wf(d) && k <= |l.Header(d)|
    ensures |InstallTrace(l, d, k)| == k
    ensures forall i :: 0 <= i < k ==> InstallTrace(l, d, k)[i] == Installed(l, d, i + 1)
    decreases k
  {
    if k > 0 {
      InstallTraceSteps(l, d, k - 1);
    }
  }

  /** Recovery's i-th write produces `RecoverStep(i)`. */
  lemma {:induction false} RecoverTraceSteps(l: Layout, d: Disk)
    requires l.Wf(d)
    ensures |RecoverTrace(l, d)| == |l.Header(d)| + 1
    ensures forall i :: 0 <= i < |RecoverTrace(l, d)| ==> RecoverTrace(l, d)[i] == RecoverStep(l, d, i + 1)
  {
    InstallTraceSteps(l, d, |l.Header(d)|);
  }

  /** Commit's i-th write produces `CommitStep(i)`. */
  lemma {:induction false} CommitTraceSteps(l: Layout, d: Disk, bs: seq<nat>, vals: seq<Block>)
    requires l.Wf(d) && |bs| == |vals| <= LOGBLOCKS && l.AllHome(bs)
    ensures |CommitTrace(l, d, bs, vals)| == 2 * |bs| + 2
    ensures forall i :: 0 <= i < 2 * |bs| + 2 ==>
              CommitTrace(l, d, bs, vals)[i] == CommitStep(l, d, bs, vals, i + 1)
  {
    LogTraceSteps(l, d, vals, |bs|);
    RecoverTraceSteps(l, AtCommitPoint(l, d, bs, vals));
  }
}
