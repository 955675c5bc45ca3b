/** Directory entries and link counts (kernel/sysfile.c, kernel/fs.c).

    `unlink`, and `create` of a new name, take all their inode locks before they release any, and
    `create` of an existing name only reads,
    so each is one step here. `link` raises the count under one lock and adds the entry under another; in
    between the link is pending, and other operations run. */
module Directories {

  const DOT: string := "."
  const DOTDOT: string := ".."
  const NLINK_MAX: nat := 32767
  const ROOTINO: nat := 1
  const MAXENTS: Room                 // entries in the largest possible directory
  type Room = n: nat | 2 <= n witness 2

  /** A directory slot; inum 0 means it is empty. */
  datatype Dirent = Dirent(inum: nat, name: string)

  datatype Kind = Unused | File | Device | Dir

  datatype Inode = Inode(kind: Kind, nlink: nat, ents: seq<Dirent>)

  // ---------------------------------------------------------------- counting entries

  /** Whether the entry counts as a link to inode `i`; "." does not. */
  function One(e: Dirent, i: nat): nat { if e.inum == i && i != 0 && e.name != DOT then 1 else 0 }

  function In(ents: seq<Dirent>, i: nat): nat {
    if |ents| == 0 then 0 else In(ents[..|ents| - 1], i) + One(ents[|ents| - 1], i)
  }

  predicate Linked(x: Inode) { x.kind == Dir && x.nlink > 0 }

  /** The links to `i` from directory `x`, if that is itself linked. */
  function Share(x: Inode, i: nat): nat { if Linked(x) then In(x.ents, i) else 0 }

  /** The links to `i` from all linked directories. */
  function Count(nodes: seq<Inode>, i: nat): nat {
    if |nodes| == 0 then 0 else Count(nodes[..|nodes| - 1], i) + Share(nodes[|nodes| - 1], i)
  }

  lemma {:induction false} InUpdate(ents: seq<Dirent>, k: nat, e: Dirent, i: nat)
    requires k < |ents|
    ensures In(ents[k := e], i) == In(ents, i) - One(ents[k], i) + One(e, i)
  {
    var n := |ents| - 1;
    if k < n {
      InUpdate(ents[..n], k, e, i);
      assert ents[k := e][..n] == ents[..n][k := e];
    } else {
      assert ents[k := e][..n] == ents[..n];
    }
  }

  lemma {:induction false} InAppend(ents: seq<Dirent>, e: Dirent, i: nat)
    ensures In(ents + [e], i) == In(ents, i) + One(e, i)
  {
    assert (ents + [e])[..|ents|] == ents;
  }

  lemma {:induction false} InZero(ents: seq<Dirent>, i: nat)
    requires forall k :: 0 <= k < |ents| ==> One(ents[k], i) == 0
    ensures In(ents, i) == 0
  {
    if |ents| > 0 {
      InZero(ents[..|ents| - 1], i);
    }
  }

  lemma {:induction false} InSingle(ents: seq<Dirent>, s: nat, i: nat)
    requires s < |ents| && forall k :: 0 <= k < |ents| && k != s ==> One(ents[k], i) == 0
    ensures In(ents, i) == One(ents[s], i)
  {
    var none := Dirent(0, DOT);
    InUpdate(ents, s, none, i);
    InZero(ents[s := none], i);
  }

  lemma {:induction false} CountUpdate(nodes: seq<Inode>, d: nat, x: Inode, i: nat)
    requires d < |nodes|
    ensures Count(nodes[d := x], i) == Count(nodes, i) - Share(nodes[d], i) + Share(x, i)
    ensures Count(nodes, i) >= Share(nodes[d], i)
  {
    var n := |nodes| - 1;
    if d < n {
      CountUpdate(nodes[..n], d, x, i);
      assert nodes[d := x][..n] == nodes[..n][d := x];
    } else {
      assert nodes[d := x][..n] == nodes[..n];
    }
  }

  lemma {:induction false} CountZero(nodes: seq<Inode>, i: nat)
    requires forall d :: 0 <= d < |nodes| ==> Share(nodes[d], i) == 0
    ensures Count(nodes, i) == 0
  {
    if |nodes| > 0 {
      CountZero(nodes[..|nodes| - 1], i);
    }
  }

  lemma {:induction false} CountSingle(nodes: seq<Inode>, d: nat, i: nat)
    requires d < |nodes| && forall k :: 0 <= k < |nodes| && k != d ==> Share(nodes[k], i) == 0
    ensures Count(nodes, i) == Share(nodes[d], i)
  {
    var none := Inode(Unused, 0, []);
    CountUpdate(nodes, d, none, i);
    CountZero(nodes[d := none], i);
  }

  /** Two directories' links are both counted. */
  lemma {:induction false} CountTwo(nodes: seq<Inode>, c: nat, d: nat, i: nat)
    requires c < |nodes| && d < |nodes| && c != d
    ensures Count(nodes, i) >= Share(nodes[c], i) + Share(nodes[d], i)
  {
    var none := Inode(Unused, 0, []);
    CountUpdate(nodes, c, none, i);
    CountUpdate(nodes[c := none], d, none, i);
  }

  // ---------------------------------------------------------------- the tree

  /** All inodes, the pending links to each, and where the entry of each directory is. */
  datatype Tree = Tree(nodes: seq<Inode>, pend: seq<nat>, at: map<nat, (nat, nat)>)

  /** Slot `s` of directory `x` names an inode in use; if it is a directory, this is its place. */
  ghost predicate EntryOk(t: Tree, x: nat, e: Dirent, s: nat) {
    e.inum != 0 ==>
      && e.name != DOT && e.name != DOTDOT && e.inum < |t.nodes| && e.inum != ROOTINO && t.nodes[e.inum].kind != Unused
      && (t.nodes[e.inum].kind == Dir ==> Linked(t.nodes[e.inum]) && e.inum in t.at && t.at[e.inum] == (x, s))
  }

  /** A linked directory starts with "." and "..", and ".." names the directory that holds its
      entry, or itself for the root. */
  ghost predicate DirOk(t: Tree, d: nat)
    requires d < |t.nodes|
  {
    var ents := t.nodes[d].ents;
    && |ents| >= 2 && ents[0] == Dirent(d, DOT) && ents[1].name == DOTDOT
    && (d == ROOTINO ==> ents[1].inum == ROOTINO)
    && (d != ROOTINO ==> PlaceOk(t, d, ents[1].inum))
    && (forall s :: 2 <= s < |ents| ==> EntryOk(t, d, ents[s], s))
  }

  ghost predicate PlaceOk(t: Tree, d: nat, p: nat) {
    d in t.at && t.at[d].0 == p && p < |t.nodes| && Linked(t.nodes[p]) && 2 <= t.at[d].1 < |t.nodes[p].ents|
    && t.nodes[p].ents[t.at[d].1].inum == d
  }

  ghost predicate NodeOk(t: Tree, i: nat)
    requires i < |t.nodes| && i < |t.pend|
  {
    && t.nodes[i].nlink == Count(t.nodes, i) + t.pend[i] <= NLINK_MAX
    && (t.pend[i] > 0 ==> t.nodes[i].kind != Dir && t.nodes[i].kind != Unused)
    && (t.nodes[i].kind == Unused ==> t.nodes[i].nlink == 0)
    && (Linked(t.nodes[i]) ==> DirOk(t, i))
    && (t.nodes[i].kind == Dir && !Linked(t.nodes[i]) ==> OnlyDots(t.nodes[i].ents))
  }

  /** No entry but "." and ".."; directories that are no longer linked are like this. */
  ghost predicate OnlyDots(ents: seq<Dirent>) {
    forall s :: 0 <= s < |ents| && ents[s].inum != 0 ==> ents[s].name == DOT || ents[s].name == DOTDOT
  }

  ghost predicate Wf(t: Tree) {
    && |t.pend| == |t.nodes| > ROOTINO && Linked(t.nodes[ROOTINO]) && t.nodes[0].kind == Unused
    && forall i :: 0 <= i < |t.nodes| ==> NodeOk(t, i)
  }

  lemma {:induction false} InAtLeast(ents: seq<Dirent>, s: nat, i: nat)
    requires s < |ents|
    ensures In(ents, i) >= One(ents[s], i)
  {
    InUpdate(ents, s, Dirent(0, DOT), i);
  }

  /** An entry in a linked directory is a link. */
  lemma {:induction false} NamedIsCounted(t: Tree, x: nat, s: nat)
    requires Wf(t) && x < |t.nodes| && Linked(t.nodes[x]) && 2 <= s < |t.nodes[x].ents| && t.nodes[x].ents[s].inum != 0
    ensures var i := t.nodes[x].ents[s].inum; i < |t.nodes| && Count(t.nodes, i) >= 1 && t.nodes[i].nlink >= 1
  {
    assert NodeOk(t, x) && DirOk(t, x);
    assert EntryOk(t, x, t.nodes[x].ents[s], s);
    var i := t.nodes[x].ents[s].inum;
    InAtLeast(t.nodes[x].ents, s, i);
    CountUpdate(t.nodes, x, t.nodes[x], i);
    assert NodeOk(t, i);
  }

  // ---------------------------------------------------------------- inodes that hold no counted entries

  /** Inode `i` becomes `x`; neither the old nor the new one is a linked directory, and the
      pending links change as the count does. */
  lemma {:induction false} PlainStep(t: Tree, i: nat, x: Inode, pend: nat)
    requires Wf(t) && 0 < i < |t.nodes| && !Linked(t.nodes[i]) && x.kind != Dir
    requires x.nlink - pend == t.nodes[i].nlink - t.pend[i] && x.nlink <= NLINK_MAX
    requires pend > 0 ==> x.kind != Dir && x.kind != Unused
    requires x.kind == Unused ==> x.nlink == 0
    requires t.nodes[i].nlink - t.pend[i] > 0 ==> x.kind == t.nodes[i].kind
    ensures Wf(t.(nodes := t.nodes[i := x], pend := t.pend[i := pend]))
  {
    var t' := t.(nodes := t.nodes[i := x], pend := t.pend[i := pend]);
    assert NodeOk(t, i);
    forall k | 0 <= k < |t'.nodes| ensures NodeOk(t', k) {
      assert NodeOk(t, k);
      CountUpdate(t.nodes, i, x, k);
      if Linked(t'.nodes[k]) {
        PlainDir(t, t', i, x, k);
      }
    }
  }

  lemma {:induction false} PlainDir(t: Tree, t': Tree, i: nat, x: Inode, d: nat)
    requires Wf(t) && 0 < i < |t.nodes| && !Linked(t.nodes[i]) && !Linked(x) && t'.nodes == t.nodes[i := x]
             && t'.at == t.at
    requires d < |t.nodes| && d != i && Linked(t.nodes[d])
             && (t.nodes[i].nlink - t.pend[i] > 0 ==> x.kind == t.nodes[i].kind)
    ensures DirOk(t', d)
  {
    assert NodeOk(t, d) && DirOk(t, d);
    var ents := t.nodes[d].ents;
    forall s | 2 <= s < |ents| ensures EntryOk(t', d, ents[s], s) {
      assert EntryOk(t, d, ents[s], s);
      if ents[s].inum == i {
        NamedIsCounted(t, d, s);
        assert NodeOk(t, i);
      }
    }
  }

  // ---------------------------------------------------------------- adding an entry

  /** The directory's entries once `e` is in slot `s`, which is empty or the next one. */
  function Put(ents: seq<Dirent>, s: nat, e: Dirent): seq<Dirent>
    requires s <= |ents|
  {
    if s == |ents| then ents + [e] else ents[s := e]
  }

  lemma {:induction false} InPut(ents: seq<Dirent>, s: nat, e: Dirent, i: nat)
    requires s <= |ents| && (s < |ents| ==> ents[s].inum == 0)
    ensures In(Put(ents, s, e), i) == In(ents, i) + One(e, i)
  {
    if s == |ents| {
      InAppend(ents, e, i);
    } else {
      InUpdate(ents, s, e, i);
    }
  }

  /** A pending link becomes an entry. */
  lemma {:induction false} EntryStep(t: Tree, d: nat, s: nat, e: Dirent)
    requires Wf(t) && d < |t.nodes| && Linked(t.nodes[d]) && 2 <= s <= |t.nodes[d].ents|
    requires s < |t.nodes[d].ents| ==> t.nodes[d].ents[s].inum == 0
    requires 0 < e.inum < |t.nodes| && t.pend[e.inum] > 0 && e.name != DOT && e.name != DOTDOT
    ensures Wf(t.(nodes := t.nodes[d := t.nodes[d].(ents := Put(t.nodes[d].ents, s, e))],
                  pend := t.pend[e.inum := t.pend[e.inum] - 1]))
  {
    var x := t.nodes[d].(ents := Put(t.nodes[d].ents, s, e));
    var t' := t.(nodes := t.nodes[d := x], pend := t.pend[e.inum := t.pend[e.inum] - 1]);
    assert NodeOk(t, e.inum) && NodeOk(t, d);
    forall k | 0 <= k < |t'.nodes| ensures NodeOk(t', k) {
      assert NodeOk(t, k);
      CountUpdate(t.nodes, d, x, k);
      InPut(t.nodes[d].ents, s, e, k);
      if Linked(t'.nodes[k]) {
        EntryDir(t, t', d, s, e, k);
      }
    }
  }

  /** Entries in other slots stay, so directories keep their places. */
  lemma {:induction false} EntryDir(t: Tree, t': Tree, d: nat, s: nat, e: Dirent, k: nat)
    requires Wf(t) && d < |t.nodes| && Linked(t.nodes[d]) && 2 <= s <= |t.nodes[d].ents| && t'.at == t.at
    requires s < |t.nodes[d].ents| ==> t.nodes[d].ents[s].inum == 0
    requires t'.nodes == t.nodes[d := t.nodes[d].(ents := Put(t.nodes[d].ents, s, e))]
    requires 0 < e.inum < |t.nodes| && t.pend[e.inum] > 0 && e.name != DOT && e.name != DOTDOT
    requires k < |t.nodes| && Linked(t.nodes[k])
    ensures DirOk(t', k)
  {
    assert NodeOk(t, k) && DirOk(t, k) && NodeOk(t, e.inum) && NodeOk(t, d) && DirOk(t, d) && NodeOk(t, ROOTINO);
    var ents := t'.nodes[k].ents;
    forall j | 2 <= j < |ents| ensures EntryOk(t', k, ents[j], j) {
      if k != d || j != s {
        assert EntryOk(t, k, t.nodes[k].ents[j], j);
      }
    }
  }

  // ---------------------------------------------------------------- making a directory

  /** The entries of a new directory `i` in directory `d`. */
  function Fresh(i: nat, d: nat): seq<Dirent> { [Dirent(i, DOT), Dirent(d, DOTDOT)] }

  lemma {:induction false} FreshIn(i: nat, d: nat, k: nat)
    requires d != 0
    ensures In(Fresh(i, d), k) == if k == d then 1 else 0
  {
    InAppend([Dirent(i, DOT)], Dirent(d, DOTDOT), k);
    InAppend([], Dirent(i, DOT), k);
    assert [Dirent(i, DOT)] + [Dirent(d, DOTDOT)] == Fresh(i, d);
    assert [] + [Dirent(i, DOT)] == [Dirent(i, DOT)];
  }

  ghost function MadeDir(t: Tree, d: nat, s: nat, i: nat, name: string): Tree
    requires d < |t.nodes| && i < |t.nodes| && s <= |t.nodes[d].ents|
  {
    var y := t.nodes[d].(nlink := t.nodes[d].nlink + 1, ents := Put(t.nodes[d].ents, s, Dirent(i, name)));
    t.(nodes := t.nodes[i := Inode(Dir, 1, Fresh(i, d))][d := y], at := t.at[i := (d, s)])
  }

  ghost predicate CanMake(t: Tree, d: nat, s: nat, i: nat, name: string) {
    && d < |t.nodes| && Linked(t.nodes[d]) && 2 <= s <= |t.nodes[d].ents| && t.nodes[d].nlink < NLINK_MAX
    && (s < |t.nodes[d].ents| ==> t.nodes[d].ents[s].inum == 0)
    && 0 < i < |t.nodes| && t.nodes[i].kind == Unused && name != DOT && name != DOTDOT
  }

  lemma {:induction false} MadeDirCount(t: Tree, d: nat, s: nat, i: nat, name: string, k: nat)
    requires Wf(t) && CanMake(t, d, s, i, name)
    ensures Count(MadeDir(t, d, s, i, name).nodes, k)
            == Count(t.nodes, k) + (if k == i then 1 else 0) + (if k == d then 1 else 0)
  {
    var x := Inode(Dir, 1, Fresh(i, d));
    var y := t.nodes[d].(nlink := t.nodes[d].nlink + 1, ents := Put(t.nodes[d].ents, s, Dirent(i, name)));
    CountUpdate(t.nodes, i, x, k);
    CountUpdate(t.nodes[i := x], d, y, k);
    FreshIn(i, d, k);
    InPut(t.nodes[d].ents, s, Dirent(i, name), k);
  }

  lemma {:induction false} MadeDirOk(t: Tree, d: nat, s: nat, i: nat, name: string, k: nat)
    requires Wf(t) && CanMake(t, d, s, i, name) && k < |t.nodes| && (k == i || Linked(t.nodes[k]))
    ensures DirOk(MadeDir(t, d, s, i, name), k)
  {
    var t' := MadeDir(t, d, s, i, name);
    assert NodeOk(t, k) && NodeOk(t, i) && NodeOk(t, d) && DirOk(t, d) && NodeOk(t, ROOTINO);
    var ents := t'.nodes[k].ents;
    forall j | 2 <= j < |ents| ensures EntryOk(t', k, ents[j], j) {
      if k != d || j != s {
        assert EntryOk(t, k, t.nodes[k].ents[j], j);
      }
    }
  }

  lemma {:induction false} MakeStep(t: Tree, d: nat, s: nat, i: nat, name: string)
    requires Wf(t) && CanMake(t, d, s, i, name)
    ensures Wf(MadeDir(t, d, s, i, name))
  {
    var t' := MadeDir(t, d, s, i, name);
    assert NodeOk(t, i) && NodeOk(t, d) && NodeOk(t, ROOTINO);
    forall k | 0 <= k < |t'.nodes| ensures NodeOk(t', k) {
      assert NodeOk(t, k);
      MadeDirCount(t, d, s, i, name, k);
      if Linked(t'.nodes[k]) {
        MadeDirOk(t, d, s, i, name, k);
      }
    }
  }

  // ---------------------------------------------------------------- removing an entry

  const ZERO: Dirent := Dirent(0, "")

  /** Slot `s` of directory `d` is cleared and the inode it named loses a link. */
  ghost function Unlinked(t: Tree, d: nat, s: nat): Tree
    requires d < |t.nodes| && s < |t.nodes[d].ents| && t.nodes[d].ents[s].inum < |t.nodes|
    requires t.nodes[d].ents[s].inum != d && t.nodes[t.nodes[d].ents[s].inum].nlink > 0
  {
    var i := t.nodes[d].ents[s].inum;
    t.(nodes := t.nodes[d := t.nodes[d].(ents := t.nodes[d].ents[s := ZERO])]
                       [i := t.nodes[i].(nlink := t.nodes[i].nlink - 1)])
  }

  lemma {:induction false} UnlinkPlain(t: Tree, d: nat, s: nat)
    requires Wf(t) && d < |t.nodes| && Linked(t.nodes[d]) && 2 <= s < |t.nodes[d].ents| && t.nodes[d].ents[s].inum != 0
    requires t.nodes[d].ents[s].inum < |t.nodes| && t.nodes[t.nodes[d].ents[s].inum].kind != Dir
    ensures t.nodes[d].ents[s].inum != d && t.nodes[t.nodes[d].ents[s].inum].nlink > 0 && Wf(Unlinked(t, d, s))
  {
    NamedIsCounted(t, d, s);
    var i := t.nodes[d].ents[s].inum;
    var y := t.nodes[d].(ents := t.nodes[d].ents[s := ZERO]);
    var t' := Unlinked(t, d, s);
    assert NodeOk(t, i) && NodeOk(t, d) && DirOk(t, d) && EntryOk(t, d, t.nodes[d].ents[s], s);
    forall k | 0 <= k < |t'.nodes| ensures NodeOk(t', k) {
      assert NodeOk(t, k);
      CountUpdate(t.nodes, d, y, k);
      CountUpdate(t.nodes[d := y], i, t'.nodes[i], k);
      InUpdate(t.nodes[d].ents, s, ZERO, k);
      if Linked(t'.nodes[k]) {
        ClearedDir(t, t', d, s, i, k);
      }
    }
  }

  lemma {:induction false} ClearedDir(t: Tree, t': Tree, d: nat, s: nat, i: nat, k: nat)
    requires Wf(t) && d < |t.nodes| && Linked(t.nodes[d]) && 2 <= s < |t.nodes[d].ents|
             && t.nodes[d].ents[s].inum == i != 0
    requires i < |t.nodes| && t.nodes[i].kind != Dir && t'.at == t.at && |t'.nodes| == |t.nodes|
    requires t'.nodes[d].ents == t.nodes[d].ents[s := ZERO] && Linked(t'.nodes[d])
    requires t'.nodes[i].kind == t.nodes[i].kind && forall j :: 0 <= j < |t.nodes| && j != d && j != i ==>
               t'.nodes[j] == t.nodes[j]
    requires k < |t.nodes| && Linked(t.nodes[k])
    ensures DirOk(t', k)
  {
    assert NodeOk(t, k) && DirOk(t, k) && NodeOk(t, d);
    var ents := t'.nodes[k].ents;
    forall j | 2 <= j < |ents| ensures EntryOk(t', k, ents[j], j) {
      assert EntryOk(t, k, t.nodes[k].ents[j], j);
    }
  }

  /** isdirempty: every slot after "." and ".." is empty. */
  ghost predicate Empty(x: Inode) {
    forall s :: 2 <= s < |x.ents| ==> x.ents[s].inum == 0
  }

  /** Slot `s` of `d` names an empty directory. */
  ghost predicate CanRemove(t: Tree, d: nat, s: nat) {
    && Wf(t) && d < |t.nodes| && Linked(t.nodes[d]) && 2 <= s < |t.nodes[d].ents|
    && 0 < t.nodes[d].ents[s].inum < |t.nodes| && var x := t.nodes[t.nodes[d].ents[s].inum]; x.kind == Dir && Empty(x)
  }

  /** The directory is not `d` itself, is linked, and its ".." names `d`. */
  lemma {:induction false} RemovedPlace(t: Tree, d: nat, s: nat)
    requires CanRemove(t, d, s)
    ensures var i := t.nodes[d].ents[s].inum;
            i != d && i != ROOTINO && Linked(t.nodes[i]) && DirOk(t, i) && t.nodes[i].ents[1].inum == d && d != 0
            && t.pend[i] == 0 && i in t.at && t.at[i] == (d, s)
  {
    var i := t.nodes[d].ents[s].inum;
    assert NodeOk(t, d) && DirOk(t, d) && EntryOk(t, d, t.nodes[d].ents[s], s);
    assert NodeOk(t, i) && DirOk(t, i);
    assert NodeOk(t, 0);
  }

  /** An empty directory's only counted entry is "..". */
  lemma {:induction false} EmptyIn(t: Tree, d: nat, s: nat, k: nat)
    requires CanRemove(t, d, s)
    ensures In(t.nodes[t.nodes[d].ents[s].inum].ents, k) == if k == d then 1 else 0
  {
    RemovedPlace(t, d, s);
    var ents := t.nodes[t.nodes[d].ents[s].inum].ents;
    forall j | 0 <= j < |ents| && j != 1 ensures One(ents[j], k) == 0 {
      assert j >= 2 ==> ents[j].inum == 0;
    }
    InSingle(ents, 1, k);
  }

  /** No other entry anywhere names it: not a second name, and no ".." of a child. */
  lemma {:induction false} OnlyName(t: Tree, d: nat, s: nat, x: nat, j: nat)
    requires CanRemove(t, d, s) && x < |t.nodes| && Linked(t.nodes[x]) && j < |t.nodes[x].ents| && (x, j) != (d, s)
    ensures One(t.nodes[x].ents[j], t.nodes[d].ents[s].inum) == 0
  {
    RemovedPlace(t, d, s);
    var i := t.nodes[d].ents[s].inum;
    assert NodeOk(t, x) && DirOk(t, x);
    if j >= 2 {
      assert EntryOk(t, x, t.nodes[x].ents[j], j);
    }
    assert Empty(t.nodes[i]);
  }

  /** So an empty directory has exactly one link. */
  lemma {:induction false} SoleLink(t: Tree, d: nat, s: nat)
    requires CanRemove(t, d, s)
    ensures Count(t.nodes, t.nodes[d].ents[s].inum) == 1 && t.nodes[t.nodes[d].ents[s].inum].nlink == 1
  {
    RemovedPlace(t, d, s);
    var i := t.nodes[d].ents[s].inum;
    assert NodeOk(t, d) && DirOk(t, d) && EntryOk(t, d, t.nodes[d].ents[s], s) && NodeOk(t, i);
    forall x | 0 <= x < |t.nodes| && x != d ensures Share(t.nodes[x], i) == 0 {
      if Linked(t.nodes[x]) {
        forall j | 0 <= j < |t.nodes[x].ents| ensures One(t.nodes[x].ents[j], i) == 0 {
          OnlyName(t, d, s, x, j);
        }
        InZero(t.nodes[x].ents, i);
      }
    }
    CountSingle(t.nodes, d, i);
    forall j | 0 <= j < |t.nodes[d].ents| && j != s ensures One(t.nodes[d].ents[j], i) == 0 {
      OnlyName(t, d, s, d, j);
    }
    InSingle(t.nodes[d].ents, s, i);
  }

  /** The parent has a link besides the child's "..", so it stays linked. */
  lemma {:induction false} ParentStays(t: Tree, d: nat, s: nat)
    requires CanRemove(t, d, s)
    ensures t.nodes[d].nlink >= 2
  {
    RemovedPlace(t, d, s);
    var i := t.nodes[d].ents[s].inum;
    EmptyIn(t, d, s, d);
    assert NodeOk(t, d) && DirOk(t, d);
    if d == ROOTINO {
      InAtLeast(t.nodes[d].ents, 1, d);
      CountTwo(t.nodes, i, d, d);
    } else {
      var p := t.nodes[d].ents[1].inum;
      var q := t.at[d].1;
      assert NodeOk(t, p) && DirOk(t, p) && EntryOk(t, p, t.nodes[p].ents[q], q);
      InAtLeast(t.nodes[p].ents, q, d);
      assert p != i by {
        assert Empty(t.nodes[i]);
      }
      CountTwo(t.nodes, i, p, d);
    }
  }

  ghost function Removed(t: Tree, d: nat, s: nat): Tree
    requires d < |t.nodes| && s < |t.nodes[d].ents| && t.nodes[d].ents[s].inum < |t.nodes|
    requires t.nodes[d].nlink > 0 && t.nodes[t.nodes[d].ents[s].inum].nlink > 0
  {
    var i := t.nodes[d].ents[s].inum;
    t.(nodes := t.nodes[d := t.nodes[d].(nlink := t.nodes[d].nlink - 1, ents := t.nodes[d].ents[s := ZERO])]
                       [i := t.nodes[i].(nlink := t.nodes[i].nlink - 1)])
  }

  lemma {:induction false} RemovedCount(t: Tree, d: nat, s: nat, k: nat)
    requires CanRemove(t, d, s) && t.nodes[d].nlink >= 2
    requires var i := t.nodes[d].ents[s].inum; i != d && t.nodes[i].nlink == 1
    ensures var i := t.nodes[d].ents[s].inum;
            Count(Removed(t, d, s).nodes, k)
            == Count(t.nodes, k) - (if k == i then 1 else 0) - (if k == d then 1 else 0)
  {
    var i := t.nodes[d].ents[s].inum;
    var t' := Removed(t, d, s);
    RemovedPlace(t, d, s);
    assert NodeOk(t, d) && DirOk(t, d) && EntryOk(t, d, t.nodes[d].ents[s], s);
    CountUpdate(t.nodes, d, t'.nodes[d], k);
    CountUpdate(t.nodes[d := t'.nodes[d]], i, t'.nodes[i], k);
    InUpdate(t.nodes[d].ents, s, ZERO, k);
    EmptyIn(t, d, s, k);
  }

  lemma {:induction false} RemovedDir(t: Tree, d: nat, s: nat, k: nat)
    requires CanRemove(t, d, s) && t.nodes[d].nlink >= 2
    requires var i := t.nodes[d].ents[s].inum;
             i != d && t.nodes[i].nlink == 1 && k < |t.nodes| && k != i && Linked(t.nodes[k])
    ensures DirOk(Removed(t, d, s), k)
  {
    var i := t.nodes[d].ents[s].inum;
    var t' := Removed(t, d, s);
    RemovedPlace(t, d, s);
    assert NodeOk(t, k) && DirOk(t, k);
    assert Empty(t.nodes[i]);
    var ents := t'.nodes[k].ents;
    forall j | 2 <= j < |ents| ensures EntryOk(t', k, ents[j], j) {
      assert EntryOk(t, k, t.nodes[k].ents[j], j);
    }
  }

  lemma {:induction false} RemoveStep(t: Tree, d: nat, s: nat)
    requires CanRemove(t, d, s)
    ensures t.nodes[d].nlink > 0 && t.nodes[t.nodes[d].ents[s].inum].nlink > 0 && t.nodes[d].ents[s].inum != d
    ensures Wf(Removed(t, d, s))
  {
    RemovedPlace(t, d, s);
    SoleLink(t, d, s);
    ParentStays(t, d, s);
    var i := t.nodes[d].ents[s].inum;
    var t' := Removed(t, d, s);
    assert NodeOk(t, ROOTINO);
    forall k | 0 <= k < |t'.nodes| ensures NodeOk(t', k) {
      assert NodeOk(t, k);
      RemovedCount(t, d, s, k);
      if Linked(t'.nodes[k]) {
        RemovedDir(t, d, s, k);
      }
    }
  }

  // ---------------------------------------------------------------- the operations

  /** The first slot in use that has this name; the number of slots if there is none. */
  function Lookup(ents: seq<Dirent>, name: string): (s: nat)
    ensures s <= |ents| && (s < |ents| ==> ents[s].inum != 0 && ents[s].name == name)
    ensures forall k :: 0 <= k < s ==> ents[k].inum == 0 || ents[k].name != name
    decreases |ents|
  {
    if |ents| == 0 then 0
    else
      var s := Lookup(ents[..|ents| - 1], name);
      if s < |ents| - 1 then s else if ents[s].inum != 0 && ents[s].name == name then s else |ents|
  }

  /** The first empty slot, or the next one. */
  function Vacant(ents: seq<Dirent>): (s: nat)
    ensures s <= |ents| && (s < |ents| ==> ents[s].inum == 0) && forall k :: 0 <= k < s ==> ents[k].inum != 0
    decreases |ents|
  {
    if |ents| == 0 then 0
    else
      var s := Vacant(ents[..|ents| - 1]);
      if s < |ents| - 1 then s else if ents[s].inum == 0 then s else |ents|
  }

  /** Whether dirlink succeeds: the name is new, and there is an empty slot or the directory
      can still grow (`can` says whether a disk block is to be had). */
  predicate Links(ents: seq<Dirent>, name: string, can: bool) {
    Lookup(ents, name) == |ents| && (Vacant(ents) < |ents| || (can && |ents| < MAXENTS))
  }

  /** In a linked directory a name not found is not a dot name, and its slots 0 and 1 are taken. */
  lemma {:induction false} NotFound(t: Tree, d: nat, name: string)
    requires Wf(t) && d < |t.nodes| && Linked(t.nodes[d])
    ensures Vacant(t.nodes[d].ents) >= 2
    ensures Lookup(t.nodes[d].ents, name) == |t.nodes[d].ents| ==> name != DOT && name != DOTDOT
    ensures Lookup(t.nodes[d].ents, name) < |t.nodes[d].ents| && name != DOT && name != DOTDOT ==>
              Lookup(t.nodes[d].ents, name) >= 2
  {
    assert NodeOk(t, d) && DirOk(t, d) && NodeOk(t, 0);
  }

  class Names {
    var nodes: seq<Inode>
    ghost var t: Tree

    ghost predicate Valid()
      reads this
    {
      Wf(t) && t.nodes == nodes
    }

    /** A file system with `n` inodes and an empty root directory, as mkfs makes it. */
    constructor (n: nat)
      requires n > ROOTINO
      ensures Valid() && |nodes| == n && forall i :: 0 <= i < n ==> t.pend[i] == 0
    {
      nodes := Start(n);
      t := Tree(Start(n), seq(n, _ => 0), map[]);
      new;
      StartWf(n);
    }

    /** dirlookup. */
    method Dirlookup(d: nat, name: string) returns (s: nat)
      requires d < |nodes| && nodes[d].kind == Dir
      ensures s == Lookup(nodes[d].ents, name)
    {
      var ents := nodes[d].ents;
      s := 0;
      while s < |ents|
        invariant s <= |ents| && forall k :: 0 <= k < s ==> ents[k].inum == 0 || ents[k].name != name
      {
        if ents[s].inum != 0 && ents[s].name == name {
          return;
        }
        s := s + 1;
      }
    }

    /** dirlink. */
    method Dirlink(d: nat, name: string, inum: nat, can: bool) returns (ok: bool)
      requires d < |nodes| && nodes[d].kind == Dir
      modifies `nodes
      ensures ok <==> Links(old(nodes)[d].ents, name, can)
      ensures !ok ==> nodes == old(nodes)
      ensures ok ==> var x := old(nodes)[d];
                     nodes == old(nodes)[d := x.(ents := Put(x.ents, Vacant(x.ents), Dirent(inum, name)))]
    {
      var ents := nodes[d].ents;
      var s := Dirlookup(d, name);
      if s < |ents| {
        return false;
      }
      s := 0;
      while s < |ents| && ents[s].inum != 0
        invariant s <= |ents| && forall k :: 0 <= k < s ==> ents[k].inum != 0
      {
        s := s + 1;
      }
      assert s == Vacant(ents);
      if s == |ents| && (!can || |ents| >= MAXENTS) {
        return false;
      }
      nodes := nodes[d := nodes[d].(ents := Put(ents, s, Dirent(inum, name)))];
      return true;
    }

    /** isdirempty. */
    method Isdirempty(i: nat) returns (empty: bool)
      requires i < |nodes|
      ensures empty <==> Empty(nodes[i])
    {
      var s := 2;
      while s < |nodes[i].ents|
        invariant forall k :: 2 <= k < s && k < |nodes[i].ents| ==> nodes[i].ents[k].inum == 0
      {
        if nodes[i].ents[s].inum != 0 {
          return false;
        }
        s := s + 1;
      }
      return true;
    }

    /** sys_link up to where it lets go of the inode: the count is raised. */
    method LinkStart(i: nat) returns (ok: bool)
      requires Valid() && 0 < i < |nodes| && nodes[i].kind != Unused
      modifies this
      ensures Valid() && t.at == old(t).at
      ensures ok <==> old(nodes)[i].kind != Dir && old(nodes)[i].nlink < NLINK_MAX
      ensures !ok ==> t == old(t)
      ensures ok ==> t == old(t).(nodes := old(nodes)[i := old(nodes)[i].(nlink := old(nodes)[i].nlink + 1)],
                                  pend := old(t).pend[i := old(t).pend[i] + 1])
    {
      if nodes[i].kind == Dir {
        return false;
      }
      if nodes[i].nlink >= NLINK_MAX {
        return false;
      }
      var x := nodes[i].(nlink := nodes[i].nlink + 1);
      PlainStep(t, i, x, t.pend[i] + 1);
      t := t.(nodes := nodes[i := x], pend := t.pend[i := t.pend[i] + 1]);
      nodes := nodes[i := x];
      return true;
    }

    /** sys_link adding the entry: the pending link becomes an entry, or stays pending. */
    method LinkEnd(d: nat, name: string, i: nat, can: bool) returns (ok: bool)
      requires Valid() && d < |nodes| && nodes[d].kind == Dir && 0 < i < |nodes| && t.pend[i] > 0
      modifies this
      ensures Valid() && t.at == old(t).at
      ensures ok <==> old(nodes)[d].nlink > 0 && Links(old(nodes)[d].ents, name, can)
      ensures !ok ==> t == old(t)
      ensures ok ==> var x := old(nodes)[d];
                     && nodes == old(nodes)[d := x.(ents := Put(x.ents, Vacant(x.ents), Dirent(i, name)))]
                     && t.pend == old(t).pend[i := old(t).pend[i] - 1]
    {
      if nodes[d].nlink == 0 {
        return false;
      }
      NotFound(t, d, name);
      ghost var s := Vacant(nodes[d].ents);
      ok := Dirlink(d, name, i, can);
      if ok {
        EntryStep(t, d, s, Dirent(i, name));
        t := t.(nodes := nodes, pend := t.pend[i := t.pend[i] - 1]);
      }
    }

    /** sys_link's error exit: the count is lowered again. */
    method LinkAbort(i: nat)
      requires Valid() && 0 < i < |nodes| && t.pend[i] > 0
      modifies this
      ensures Valid() && t == old(t).(nodes := nodes, pend := old(t).pend[i := old(t).pend[i] - 1])
      ensures old(nodes)[i].nlink > 0 && nodes == old(nodes)[i := old(nodes)[i].(nlink := old(nodes)[i].nlink - 1)]
    {
      assert NodeOk(t, i);
      var x := nodes[i].(nlink := nodes[i].nlink - 1);
      PlainStep(t, i, x, t.pend[i] - 1);
      t := t.(nodes := nodes[i := x], pend := t.pend[i := t.pend[i] - 1]);
      nodes := nodes[i := x];
    }

    /** iput dropping the last reference to an inode without links, which is then free. */
    method Reclaim(i: nat)
      requires Valid() && 0 < i < |nodes| && nodes[i].nlink == 0
      modifies this
      ensures Valid() && nodes == old(nodes)[i := Inode(Unused, 0, [])] && t == old(t).(nodes := nodes)
    {
      assert NodeOk(t, i);
      PlainStep(t, i, Inode(Unused, 0, []), 0);
      assert t.pend[i := 0] == t.pend;
      nodes := nodes[i := Inode(Unused, 0, [])];
      t := t.(nodes := nodes);
    }

    /** sys_unlink. */
    method Unlink(d: nat, name: string) returns (ok: bool)
      requires Valid() && d < |nodes| && nodes[d].kind == Dir
      modifies this
      ensures Valid() && t.pend == old(t).pend
      ensures ok <==> CanUnlink(old(nodes), d, name)
      ensures !ok ==> t == old(t)
      ensures ok ==> var s := Lookup(old(nodes)[d].ents, name);
                     var i := old(nodes)[d].ents[s].inum;
                     0 < i < |old(nodes)| && i != d && old(nodes)[i].nlink > 0 && old(nodes)[d].nlink > 0
                     && t == if old(nodes)[i].kind == Dir then Removed(old(t), d, s) else Unlinked(old(t), d, s)
    {
      if name == DOT || name == DOTDOT {
        return false;
      }
      var s := Dirlookup(d, name);
      if s == |nodes[d].ents| {
        return false;
      }
      Found(t, d, name, s);
      var i := nodes[d].ents[s].inum;
      assert nodes[i].nlink >= 1; // panic("unlink: nlink < 1")
      if nodes[i].kind == Dir {
        var empty := Isdirempty(i);
        if !empty {
          return false;
        }
        RemoveStep(t, d, s);
        t := Removed(t, d, s);
        nodes := nodes[d := nodes[d].(ents := nodes[d].ents[s := ZERO])];
        nodes := nodes[d := nodes[d].(nlink := nodes[d].nlink - 1)];
      } else {
        UnlinkPlain(t, d, s);
        t := Unlinked(t, d, s);
        nodes := nodes[d := nodes[d].(ents := nodes[d].ents[s := ZERO])];
      }
      nodes := nodes[i := nodes[i].(nlink := nodes[i].nlink - 1)];
      return true;
    }

    /** ialloc: the first free inode, or 0. */
    method Ialloc(kind: Kind) returns (i: nat)
      requires |nodes| > 0
      modifies `nodes
      ensures i == 0 ==> nodes == old(nodes) && forall k :: 1 <= k < |nodes| ==> nodes[k].kind != Unused
      ensures i != 0 ==>
                i < |old(nodes)| && old(nodes)[i].kind == Unused && nodes == old(nodes)[i := Inode(kind, 0, [])]
    {
      i := 1;
      while i < |nodes|
        invariant 1 <= i && nodes == old(nodes) && forall k :: 1 <= k < i && k < |nodes| ==> nodes[k].kind != Unused
      {
        if nodes[i].kind == Unused {
          nodes := nodes[i := Inode(kind, 0, [])];
          return;
        }
        i := i + 1;
      }
      return 0;
    }

    /** create's entry for a file or device: its only link is pending until the entry is there. */
    method AddFile(d: nat, name: string, i: nat, kind: Kind, can: bool) returns (ok: bool)
      requires Wf(t) && d < |t.nodes| && Linked(t.nodes[d]) && Lookup(t.nodes[d].ents, name) == |t.nodes[d].ents|
      requires 0 < i < |t.nodes| && t.nodes[i].kind == Unused && (kind == File || kind == Device)
      requires nodes == t.nodes[i := Inode(kind, 1, [])]
      modifies this
      ensures ok <==> Links(old(t).nodes[d].ents, name, can)
      ensures ok ==> Valid() && t == Added(old(t), d, i, kind, name)
      ensures !ok ==> nodes == old(nodes) && t == old(t)
    {
      NotFound(t, d, name);
      assert NodeOk(t, i);
      ghost var s := Vacant(t.nodes[d].ents);
      ok := Dirlink(d, name, i, can);
      if ok {
        PlainStep(t, i, Inode(kind, 1, []), 1);
        ghost var u := t.(nodes := t.nodes[i := Inode(kind, 1, [])], pend := t.pend[i := 1]);
        EntryStep(u, d, s, Dirent(i, name));
        assert u.pend[i := 0] == t.pend;
        t := t.(nodes := nodes);
      }
    }

    /** create's entries for a directory: "." and ".." in the new one, then its name. */
    method AddDir(d: nat, name: string, i: nat, dot: bool, dotdot: bool, can: bool) returns (ok: bool)
      requires Wf(t) && d < |t.nodes| && Linked(t.nodes[d]) && Lookup(t.nodes[d].ents, name) == |t.nodes[d].ents|
      requires 0 < i < |t.nodes| && t.nodes[i].kind == Unused && t.nodes[d].nlink < NLINK_MAX
      requires nodes == t.nodes[i := Inode(Dir, 1, [])]
      modifies this
      ensures ok <==> dot && dotdot && Links(old(t).nodes[d].ents, name, can)
      ensures ok ==> Valid() && t == MadeDir(old(t), d, Vacant(old(t).nodes[d].ents), i, name)
      ensures !ok ==> t == old(t) && exists ents :: nodes == old(nodes)[i := Inode(Dir, 1, ents)]
    {
      NotFound(t, d, name);
      FreshSteps(i, d, dot, dotdot);
      ghost var s := Vacant(t.nodes[d].ents);
      ghost var start := nodes;
      ok := Dirlink(i, DOT, i, dot);
      if ok {
        ok := Dirlink(i, DOTDOT, d, dotdot);
        if ok {
          assert nodes == start[i := Inode(Dir, 1, Fresh(i, d))];
          ok := Dirlink(d, name, i, can);
          if ok {
            nodes := nodes[d := nodes[d].(nlink := nodes[d].nlink + 1)];
            MakeStep(t, d, s, i, name);
            t := MadeDir(t, d, s, i, name);
          }
        }
      }
    }

    /** create. It returns the inode, an existing one only when a file was asked for, or 0. */
    method Create(d: nat, name: string, kind: Kind, dot: bool, dotdot: bool, can: bool) returns (i: nat)
      requires Valid() && d < |nodes| && nodes[d].kind == Dir && kind != Unused
      modifies this
      ensures Valid() && t.pend == old(t).pend
      ensures i != 0 <==> CanCreate(old(nodes), d, name, kind, dot, dotdot, can)
      ensures i == 0 ==> t == old(t).(nodes := nodes) && OnlyFreed(old(nodes), nodes)
      ensures i != 0 && Lookup(old(nodes)[d].ents, name) < |old(nodes)[d].ents| ==>
                t == old(t) && kind == File && i < |nodes| && nodes[i].kind in {File, Device}
      ensures i != 0 && Lookup(old(nodes)[d].ents, name) == |old(nodes)[d].ents| ==>
                && i < |nodes| && old(nodes)[i].kind == Unused
                && t == if kind == Dir then MadeDir(old(t), d, Vacant(old(nodes)[d].ents), i, name)
                   else Added(old(t), d, i, kind, name)
    {
      if nodes[d].nlink == 0 {
        return 0;
      }
      if kind == Dir && nodes[d].nlink >= NLINK_MAX {
        return 0;
      }
      var s := Dirlookup(d, name);
      if s < |nodes[d].ents| {
        i := nodes[d].ents[s].inum;
        Existing(t, d, s);
        if kind == File && (nodes[i].kind == File || nodes[i].kind == Device) {
          return;
        }
        return 0;
      }
      i := Ialloc(kind);
      if i == 0 {
        return;
      }
      assert NodeOk(t, i);
      ghost var start := t.nodes;
      nodes := nodes[i := nodes[i].(nlink := 1)];
      var ok;
      if kind == Dir {
        ok := AddDir(d, name, i, dot, dotdot, can);
      } else {
        ok := AddFile(d, name, i, kind, can);
      }
      if !ok {
        nodes := nodes[i := nodes[i].(nlink := 0)];
        PlainStep(t, i, Inode(Unused, 0, []), 0);
        nodes := nodes[i := Inode(Unused, 0, [])]; // the last reference is dropped
        assert nodes == start[i := Inode(Unused, 0, [])];
        assert t.pend[i := 0] == t.pend;
        t := t.(nodes := nodes);
        return 0;
      }
    }

    /** Any interleaving of operations, links that are still pending included. Requests that
        the kernel cannot be in a position to make are skipped. */
    method Run(ops: seq<Op>) returns (pending: multiset<nat>)
      requires Valid() && forall i :: 0 <= i < |t.pend| ==> t.pend[i] == 0
      modifies this
      ensures Valid() && |nodes| == |old(nodes)|
      ensures forall i :: 0 <= i < |nodes| ==> nodes[i].nlink == Count(nodes, i) + pending[i] <= NLINK_MAX
    {
      pending := multiset{};
      for k := 0 to |ops|
        invariant Valid() && |nodes| == |old(nodes)| && Pending(t, pending)
      {
        pending := Step(ops[k], pending);
      }
      forall i | 0 <= i < |nodes| ensures nodes[i].nlink == Count(nodes, i) + pending[i] <= NLINK_MAX {
        assert NodeOk(t, i);
      }
    }

    method Step(op: Op, pending: multiset<nat>) returns (pending': multiset<nat>)
      requires Valid() && Pending(t, pending)
      modifies this
      ensures Valid() && |nodes| == |old(nodes)| && Pending(t, pending')
    {
      pending' := pending;
      match op
      case CreateOp(d, name, kind, dot, dotdot, can) =>
        if d < |nodes| && nodes[d].kind == Dir && kind != Unused {
          var _ := Create(d, name, kind, dot, dotdot, can);
        }
      case LinkStartOp(i) =>
        if 0 < i < |nodes| && nodes[i].kind != Unused {
          var ok := LinkStart(i);
          pending' := if ok then pending + multiset{i} else pending;
        }
      case LinkEndOp(d, name, i, can) =>
        if 0 < i < |nodes| && i in pending && d < |nodes| && nodes[d].kind == Dir {
          var ok := LinkEnd(d, name, i, can);
          pending' := if ok then pending - multiset{i} else pending;
        }
      case LinkAbortOp(i) =>
        if 0 < i < |nodes| && i in pending {
          LinkAbort(i);
          pending' := pending - multiset{i};
        }
      case UnlinkOp(d, name) =>
        if d < |nodes| && nodes[d].kind == Dir {
          var _ := Unlink(d, name);
        }
      case ReclaimOp(i) =>
        if 0 < i < |nodes| && nodes[i].nlink == 0 {
          Reclaim(i);
        }
    }
  }

  /** The links in the middle of being made. */
  ghost predicate Pending(t: Tree, pending: multiset<nat>) {
    forall i :: 0 <= i < |t.pend| ==> t.pend[i] == pending[i]
  }

  datatype Op =
    | CreateOp(d: nat, name: string, kind: Kind, dot: bool, dotdot: bool, can: bool)
    | LinkStartOp(i: nat)
    | LinkEndOp(d: nat, name: string, i: nat, can: bool)
    | LinkAbortOp(i: nat)
    | UnlinkOp(d: nat, name: string)
    | ReclaimOp(i: nat)

  /** When create succeeds. */
  ghost predicate CanCreate(nodes: seq<Inode>, d: nat, name: string, kind: Kind, dot: bool, dotdot: bool, can: bool)
    requires d < |nodes|
  {
    var s := Lookup(nodes[d].ents, name);
    && nodes[d].nlink > 0 && (kind == Dir ==> nodes[d].nlink < NLINK_MAX)
    && if s < |nodes[d].ents| then
         kind == File && nodes[d].ents[s].inum < |nodes| && nodes[nodes[d].ents[s].inum].kind in {File, Device}
       else
         (exists i :: 1 <= i < |nodes| && nodes[i].kind == Unused) && (kind == Dir ==> dot && dotdot)
           && Links(nodes[d].ents, name, can)
  }

  /** The two entries that make a new directory. */
  lemma {:induction false} FreshSteps(i: nat, d: nat, dot: bool, dotdot: bool)
    requires i != 0
    ensures Links([], DOT, dot) <==> dot
    ensures Put([], Vacant([]), Dirent(i, DOT)) == [Dirent(i, DOT)]
    ensures Links([Dirent(i, DOT)], DOTDOT, dotdot) <==> dotdot
    ensures Put([Dirent(i, DOT)], Vacant([Dirent(i, DOT)]), Dirent(d, DOTDOT)) == Fresh(i, d)
  {
    assert Lookup([Dirent(i, DOT)], DOTDOT) == 1 by {
      assert |DOT| != |DOTDOT|;
    }
    assert Vacant([Dirent(i, DOT)]) == 1;
  }

  ghost predicate CanUnlink(nodes: seq<Inode>, d: nat, name: string)
    requires d < |nodes|
  {
    && name != DOT && name != DOTDOT && Lookup(nodes[d].ents, name) < |nodes[d].ents|
    && var i := nodes[d].ents[Lookup(nodes[d].ents, name)].inum;
       i < |nodes| && (nodes[i].kind == Dir ==> Empty(nodes[i]))
  }

  /** What a name found in a directory says about the directory and the inode. */
  lemma {:induction false} Found(t: Tree, d: nat, name: string, s: nat)
    requires Wf(t) && d < |t.nodes| && t.nodes[d].kind == Dir && s == Lookup(t.nodes[d].ents, name) < |t.nodes[d].ents|
    requires name != DOT && name != DOTDOT
    ensures Linked(t.nodes[d]) && s >= 2 && 0 < t.nodes[d].ents[s].inum < |t.nodes|
            && t.nodes[t.nodes[d].ents[s].inum].nlink >= 1
  {
    assert NodeOk(t, d);
    NotFound(t, d, name);
    NamedIsCounted(t, d, s);
  }

  /** A new file `i` named in directory `d`. */
  ghost function Added(t: Tree, d: nat, i: nat, kind: Kind, name: string): Tree
    requires d < |t.nodes| && i < |t.nodes|
  {
    var x := t.nodes[d];
    t.(nodes := t.nodes[i := Inode(kind, 1, [])][d := x.(ents := Put(x.ents, Vacant(x.ents), Dirent(i, name)))])
  }

  /** At most the contents of a free inode differ. */
  ghost predicate OnlyFreed(nodes: seq<Inode>, nodes': seq<Inode>) {
    |nodes'| == |nodes| && forall k :: 0 <= k < |nodes| && nodes'[k] != nodes[k] ==>
      nodes[k].kind == nodes'[k].kind == Unused
  }

  lemma {:induction false} Existing(t: Tree, d: nat, s: nat)
    requires Wf(t) && d < |t.nodes| && Linked(t.nodes[d]) && s < |t.nodes[d].ents| && t.nodes[d].ents[s].inum != 0
    ensures t.nodes[d].ents[s].inum < |t.nodes|
  {
    assert NodeOk(t, d) && DirOk(t, d);
    if s >= 2 {
      assert EntryOk(t, d, t.nodes[d].ents[s], s);
    }
  }

  function Start(n: nat): seq<Inode> {
    seq(n, i => if i == ROOTINO then Inode(Dir, 1, Fresh(ROOTINO, ROOTINO)) else Inode(Unused, 0, []))
  }

  lemma {:induction false} StartWf(n: nat)
    requires n > ROOTINO
    ensures Wf(Tree(Start(n), seq(n, _ => 0), map[]))
  {
    var t := Tree(Start(n), seq(n, _ => 0), map[]);
    forall k | 0 <= k < n ensures NodeOk(t, k) {
      CountSingle(t.nodes, ROOTINO, k);
      FreshIn(ROOTINO, ROOTINO, k);
    }
  }
}
