/** The block allocator and inode contents (kernel/fs.c) and file writes (kernel/file.c),
    working in place on the cached blocks and inodes. */
module Files {
  import opened Params
  import opened FsImage

  // ---------------------------------------------------------------- what operations may change

  ghost predicate Wf(img: Image) { WfAt(img, DEPTH) }

  /** Inodes other than `i` are the same. */
  ghost predicate OthersSame(img: Image, img': Image, i: nat) {
    && |img'.inodes| == |img.inodes| && |img'.nodes| == |img.nodes|
    && (forall k :: 0 <= k < |img.inodes| && k != i ==> img'.inodes[k] == img.inodes[k])
    && (forall k :: 0 <= k < |img.nodes| && k != i ==> img'.nodes[k] == img.nodes[k])
  }

  /** The contents of all data blocks are the same. */
  ghost predicate DataKept(img: Image, img': Image) {
    && |img'.blocks| == |img.blocks|
    && forall c :: c in img.owner && img.owner[c].Data? && c < |img.blocks| ==> img'.blocks[c] == img.blocks[c]
  }

  /** Every block that is in no slot was in none before. */
  ghost predicate NoNewLoose(img: Image, img': Image) {
    forall c :: c in img'.owner && img'.owner[c].Loose? ==> c in img.owner && img.owner[c].Loose?
  }

  /** File `i` may have gained an indirect block and gained the block `addr` at `bn`; if the
      block is new it is zero. Nothing else about any file changed. */
  ghost predicate Extended(img: Image, img': Image, i: nat, bn: nat, addr: nat) {
    && i < |img.inodes| && i < |img.nodes| && OthersSame(img, img', i) && DataKept(img, img')
    && (forall c :: c in img.owner && !img.owner[c].Loose? ==> c in img'.owner && img'.owner[c] == img.owner[c])
    && NoNewLoose(img, img')
    && img'.inodes[i].size == img.inodes[i].size
    && img'.nodes[i].slots == (if addr == 0 then img.nodes[i].slots else img.nodes[i].slots[bn := addr])
    && (img.nodes[i].ind != 0 ==> img'.nodes[i].ind == img.nodes[i].ind)
    && (addr != 0 && bn !in img.nodes[i].slots ==> addr < |img'.blocks| && img'.blocks[addr] == ZeroBlock())
  }

  /** No block is left. */
  ghost predicate Full(img: Image) {
    Shaped(img.blocks) && forall c :: 0 <= c < SB.size ==> InUse(img.blocks, c)
  }

  // ---------------------------------------------------------------- reading the image

  lemma {:induction false} NodeIn(img: Image, i: nat)
    requires Wf(img) && i < NINODES
    ensures Shaped(img.blocks) && |img.inodes| == |img.nodes| == NINODES
    ensures NodeOk(img.blocks, img.owner, img.inodes[i], img.nodes[i], i)
  {
    Unfold(img);
  }

  lemma {:induction false} SlotIn(img: Image, i: nat, bn: nat)
    requires Wf(img) && i < NINODES && i < |img.nodes| && bn in img.nodes[i].slots
    ensures var b := img.nodes[i].slots[bn];
            b != 0 && Owned(img.owner, b, Data(i, bn)) && b < |img.blocks| && |img.blocks[b]| == BSIZE
  {
    Unfold(img);
    assert NodeOk(img.blocks, img.owner, img.inodes[i], img.nodes[i], i);
  }

  /** Bytes of files that keep their slots stay the same. */
  lemma {:induction false} ByteKept(img: Image, img': Image, k: nat, o: nat)
    requires Wf(img) && Shaped(img'.blocks) && DataKept(img, img') && k < NINODES
             && |img.nodes| == |img'.nodes| == NINODES
    requires o / BSIZE in img.nodes[k].slots && o / BSIZE in img'.nodes[k].slots
    requires img'.nodes[k].slots[o / BSIZE] == img.nodes[k].slots[o / BSIZE]
    ensures Byte(img', k, o) == Byte(img, k, o)
  {
    SlotIn(img, k, o / BSIZE);
  }

  class Fs {
    var blocks: Blocks
    var inodes: seq<Inode>
    var dinodes: seq<Inode>     // the inodes as stored in the inode blocks
    ghost var img: Image
    ghost var dirty: set<nat>   // the blocks logged by the current transaction

    ghost predicate Ready()
      reads this
    {
      Wf(img) && blocks == img.blocks && inodes == img.inodes && |dinodes| == NINODES
    }

    /** balloc: the first block whose bit is clear, marked and zeroed; 0 if there is none. */
    method Balloc() returns (b: nat)
      requires Ready()
      modifies this
      ensures Ready() && inodes == old(inodes) && dinodes == old(dinodes) && Shaped(old(blocks))
      ensures b == 0 ==>
                img == old(img) && dirty == old(dirty) && forall c :: 0 <= c < SB.size ==> InUse(old(blocks), c)
      ensures b != 0 ==>
                SB.nmeta <= b < SB.size && !InUse(old(blocks), b) && forall c :: 0 <= c < b ==> InUse(old(blocks), c)
      ensures b != 0 ==> img == Taken(old(img), b) && dirty == old(dirty) + {Bblock(SB, b), b}
    {
      Unfold(img);
      var base := 0;
      while base < SB.size
        invariant Ready() && WfBody(img) && base % BPB == 0 && unchanged(this)
        invariant forall c :: 0 <= c < base && c < SB.size ==> InUse(blocks, c)
      {
        BblockOk(base);
        var bp := blocks[Bblock(SB, base)];
        var bi := 0;
        while bi < BPB && base + bi < SB.size
          invariant bi <= BPB && unchanged(this)
          invariant forall c :: 0 <= c < base + bi && c < SB.size ==> InUse(blocks, c)
        {
          assert Bblock(SB, base + bi) == Bblock(SB, base) && (base + bi) % BPB == bi;
          if !BitOf(bp, bi) {
            b := base + bi;
            assert UseOk(img, b);
            TakenWf(img, b);
            Unfold(Taken(img, b));
            blocks := blocks[Bblock(SB, b) := Mark(bp, bi)];
            blocks := blocks[b := ZeroBlock()];
            img := Taken(img, b);
            dirty := dirty + {Bblock(SB, b), b};
            return;
          }
          bi := bi + 1;
        }
        base := base + BPB;
      }
      return 0;
    }

    /** bfree: clears the bit of a block that is in use. */
    method Bfree(b: nat)
      requires Shaped(blocks) && b < SB.size && InUse(blocks, b)
      modifies `blocks, `dirty
      ensures blocks == Unmarked(old(blocks), b) && dirty == old(dirty) + {Bblock(SB, b)}
    {
      BblockOk(b);
      var bp, bi := blocks[Bblock(SB, b)], b % BPB;
      assert BitOf(bp, bi); // panic("freeing free block")
      blocks := blocks[Bblock(SB, b) := Unmark(bp, bi)];
      dirty := dirty + {Bblock(SB, b)};
    }

    /** bmap for a direct block. */
    method BmapDirect(i: nat, bn: nat) returns (addr: nat, ghost maps: set<nat>)
      requires Ready() && i < NINODES && |img.nodes| == NINODES && bn < NDIRECT
      modifies this
      ensures Ready() && dinodes == old(dinodes) && |img.nodes| == NINODES && Extended(old(img), img, i, bn, addr)
      ensures bn in old(img).nodes[i].slots ==>
                addr == old(img).nodes[i].slots[bn] && img == old(img) && addr != 0 && dirty == old(dirty) && maps == {}
      ensures Logged(old(img), img, old(dirty), dirty, i, bn, addr, maps) && (addr == 0 ==> Full(img))
    {
      NodeIn(img, i);
      maps := {};
      addr := inodes[i].addrs[bn];
      if addr == 0 {
        ghost var u := img;
        addr := Balloc();
        if addr != 0 {
          ghost var t := img;
          DirectDone(u, t, i, bn, addr);
          inodes := inodes[i := inodes[i].(addrs := inodes[i].addrs[bn := addr])];
          img := Attached(t, i, bn, addr);
          maps := {Bblock(SB, addr)};
        }
      } else {
        SlotIn(img, i, bn);
      }
    }

    /** bmap for a block behind the indirect block, once that exists. */
    method BmapEntry(i: nat, j: nat) returns (addr: nat, ghost maps: set<nat>)
      requires Ready() && i < NINODES && |img.nodes| == NINODES && j < NINDIRECT && img.nodes[i].ind != 0
      modifies this
      ensures Ready() && dinodes == old(dinodes) && |img.nodes| == NINODES
              && Extended(old(img), img, i, NDIRECT + j, addr)
      ensures NDIRECT + j in old(img).nodes[i].slots ==>
                addr == old(img).nodes[i].slots[NDIRECT + j] && img == old(img) && addr != 0 && dirty == old(dirty)
                && maps == {}
      ensures Logged(old(img), img, old(dirty), dirty, i, NDIRECT + j, addr, maps) && (addr == 0 ==> Full(img))
    {
      NodeIn(img, i);
      maps := {};
      ghost var u := img;
      var g := inodes[i].addrs[NDIRECT];
      var bp := blocks[g];
      addr := Word(bp, j);
      if addr == 0 {
        addr, maps := NewEntry(i, j, g);
      } else {
        SlotIn(img, i, NDIRECT + j);
      }
    }

    /** A new block, entered in word `j` of indirect block `g`. */
    method NewEntry(i: nat, j: nat, g: nat) returns (addr: nat, ghost maps: set<nat>)
      requires Ready() && i < NINODES && |img.nodes| == |img.inodes| == NINODES && j < NINDIRECT
      requires g == img.nodes[i].ind != 0 && NodeOk(img.blocks, img.owner, img.inodes[i], img.nodes[i], i)
      requires g < |blocks| && |blocks[g]| == BSIZE && Word(blocks[g], j) == 0
      modifies this
      ensures Ready() && dinodes == old(dinodes) && |img.nodes| == NINODES
              && Extended(old(img), img, i, NDIRECT + j, addr)
      ensures NDIRECT + j !in old(img).nodes[i].slots
      ensures Logged(old(img), img, old(dirty), dirty, i, NDIRECT + j, addr, maps) && (addr == 0 ==> Full(img))
    {
      maps := {};
      ghost var u := img;
      NoSlot(u, i, j);
      addr := Balloc();
      if addr != 0 {
        ghost var t := img;
        EntryDone(u, t, i, j, addr);
        blocks := blocks[g := SetWord(blocks[g], j, addr)];
        dirty := dirty + {g};
        img := AttachedEntry(t, i, j, addr);
        maps := {Bblock(SB, addr)};
      }
    }

    /** bmap for a block behind the indirect block. */
    method BmapIndirect(i: nat, j: nat) returns (addr: nat, ghost maps: set<nat>)
      requires Ready() && i < NINODES && |img.nodes| == NINODES && j < NINDIRECT
      modifies this
      ensures Ready() && dinodes == old(dinodes) && |img.nodes| == NINODES
              && Extended(old(img), img, i, NDIRECT + j, addr)
      ensures NDIRECT + j in old(img).nodes[i].slots ==>
                addr == old(img).nodes[i].slots[NDIRECT + j] && img == old(img) && addr != 0 && dirty == old(dirty)
                && maps == {}
      ensures Logged(old(img), img, old(dirty), dirty, i, NDIRECT + j, addr, maps) && (addr == 0 ==> Full(img))
    {
      NodeIn(img, i);
      ghost var u := img;
      if inodes[i].addrs[NDIRECT] != 0 {
        addr, maps := BmapEntry(i, j);
        return;
      }
      ExtendedNot(u, i, NDIRECT + j);
      maps := {};
      addr := Balloc();
      if addr == 0 {
        return;
      }
      ghost var first := {Bblock(SB, addr)};
      IndDone(u, img, i, NDIRECT + j, addr);
      inodes := inodes[i := inodes[i].(addrs := inodes[i].addrs[NDIRECT := addr])];
      img := AttachedInd(img, i, addr);
      ghost var t, d := img, dirty;
      addr, maps := BmapEntry(i, j);
      ExtendedTwice(u, t, img, i, NDIRECT + j, addr);
      LoggedTwice(u, t, img, old(dirty), d, dirty, i, NDIRECT + j, addr, first, maps);
      maps := first + maps;
    }

    /** bmap: the block behind block `bn` of the file, allocated if need be; 0 if the disk
        is full. */
    method Bmap(i: nat, bn: nat) returns (addr: nat, ghost maps: set<nat>)
      requires Ready() && i < NINODES && |img.nodes| == NINODES && bn < MAXFILE
      modifies this
      ensures Ready() && dinodes == old(dinodes) && |img.nodes| == NINODES && Extended(old(img), img, i, bn, addr)
      ensures bn in old(img).nodes[i].slots ==>
                addr == old(img).nodes[i].slots[bn] && img == old(img) && addr != 0 && dirty == old(dirty) && maps == {}
      ensures Logged(old(img), img, old(dirty), dirty, i, bn, addr, maps) && (addr == 0 ==> Full(img))
    {
      if bn < NDIRECT {
        addr, maps := BmapDirect(i, bn);
      } else {
        addr, maps := BmapIndirect(i, bn - NDIRECT);
      }
    }

    /** iupdate: the inode is copied to its block. */
    method Iupdate(i: nat)
      requires i < |inodes| && i < |dinodes|
      modifies `dinodes, `dirty
      ensures dinodes == old(dinodes)[i := inodes[i]] && dirty == old(dirty) + {Iblock(SB, i)}
    {
      dinodes := dinodes[i := inodes[i]];
      dirty := dirty + {Iblock(SB, i)};
    }

    /** One turn of writei's loop at offset `off + tot`: how many bytes were copied, or none
        if the disk is full. Only the first `avail` bytes of the source can be read. */
    method WriteBlock(i: nat, off: nat, src: seq<nat>, avail: nat, tot: nat, ghost u: Image)
      returns (full: bool, m: nat, got: nat, ghost addr: nat, ghost maps: set<nat>)
      requires Ready() && i < NINODES && |img.nodes| == NINODES && off + |src| <= MAXBYTES && tot < |src|
               && tot <= avail
      requires Wrote(u, img, i, off, src, tot)
      modifies this
      ensures Ready() && dinodes == old(dinodes) && |img.nodes| == NINODES
      ensures full ==> got == 0 && m == 0 && Full(img)
      ensures !full ==>
                0 < m <= |src| - tot && m <= BSIZE - (off + tot) % BSIZE
                && got == (if avail - tot < m then avail - tot else m)
      ensures !full ==> m == |src| - tot || (off + tot + m) % BSIZE == 0
      ensures Wrote(u, img, i, off, src, tot + got)
      ensures LoggedOne(old(img), img, old(dirty), dirty, i, (off + tot) / BSIZE, addr, maps)
    {
      var o := off + tot;
      var b;
      ghost var t := img;
      b, maps := Bmap(i, o / BSIZE);
      addr := b;
      ExtendStep(u, t, img, i, off, src, tot, o / BSIZE, b);
      if b == 0 {
        return true, 0, 0, 0, maps;
      }
      full := false;
      m := if |src| - tot < BSIZE - o % BSIZE then |src| - tot else BSIZE - o % BSIZE;
      got := if avail - tot < m then avail - tot else m;
      StoreAt(i, b, off, src, tot, got, u);
    }

    /** The first `got` bytes of `src` from `tot` on are copied into block `b`, which is
        logged, even when the copy stopped short. */
    method StoreAt(i: nat, b: nat, off: nat, src: seq<nat>, tot: nat, got: nat, ghost u: Image)
      requires Ready() && i < NINODES && |img.nodes| == NINODES && tot + got <= |src|
               && (off + tot) % BSIZE + got <= BSIZE
      requires (off + tot) / BSIZE in img.nodes[i].slots && b == img.nodes[i].slots[(off + tot) / BSIZE]
      requires Wrote(u, img, i, off, src, tot)
      modifies `blocks, `dirty, `img
      ensures Ready() && img.nodes == old(img).nodes && Wrote(u, img, i, off, src, tot + got)
              && dirty == old(dirty) + {b}
    {
      ghost var t := img;
      SlotIn(t, i, (off + tot) / BSIZE);
      var page := Patch(blocks[b], (off + tot) % BSIZE, src[tot..tot + got]);
      Unfold(t);
      StoredWf(t, i, (off + tot) / BSIZE, page);
      StoreStep(u, t, t.(blocks := t.blocks[b := page]), i, off, src, tot, got);
      blocks := blocks[b := page];
      dirty := dirty + {b};
      img := t.(blocks := t.blocks[b := page]);
      Unfold(img);
    }

    /** writei's loop: `tot` bytes are accounted for, and `a` were copied. */
    method WriteBlocks(i: nat, off: nat, src: seq<nat>, avail: nat) returns (tot: nat, ghost a: nat, ghost y: Tally)
      requires Ready() && i < NINODES && |img.nodes| == NINODES && i < |img.inodes| && off <= img.inodes[i].size
               && off + |src| <= MAXBYTES
      modifies this
      ensures Ready() && dinodes == old(dinodes) && |img.nodes| == NINODES
      ensures tot <= a <= |src| && Wrote(old(img), img, i, off, src, a)
      ensures tot <= avail && (tot < |src| ==> Full(img) || avail < |src|)
      ensures tot == |src| ==> a == tot
      ensures TallyOk(old(img), img, old(dirty), dirty, i, y) && Turns(off, |src|, y)
    {
      ghost var u, d0 := img, dirty;
      WroteNothing(u, i, off, src);
      if off % BSIZE != 0 {
        FirstPresent(u, i, off);
      }
      tot, a, y := 0, 0, Tally({}, {}, 0, 0);
      while tot < |src|
        invariant tot == a <= |src| && Ready() && dinodes == old(dinodes) && |img.nodes| == NINODES
                  && tot <= avail + |src|
        invariant Wrote(u, img, i, off, src, tot) && TallyOk(u, img, d0, dirty, i, y) && Turns(off, |src|, y)
        invariant tot < |src| ==> (off + tot) / BSIZE == off / BSIZE + y.turns
        invariant tot <= avail
      {
        ghost var t, d := img, dirty;
        ghost var bn := (off + tot) / BSIZE;
        var full, m, got;
        ghost var addr, maps;
        full, m, got, addr, maps := WriteBlock(i, off, src, avail, tot, u);
        y := Counted(u, t, img, d0, d, dirty, i, y, bn, addr, maps, off, |src|);
        if full {
          break;
        }
        if got < m {
          a := tot + got;
          break;
        }
        NextBlock(off, tot, m, |src|);
        tot := tot + m;
        a := tot;
      }
    }

    /** writei. It returns -1 for a bad range; otherwise the bytes accounted for, and `a` is
        how many were copied. When all are, exactly those are spliced in at `off`. */
    method Writei(i: nat, off: nat, src: seq<nat>, avail: nat) returns (r: int, ghost a: nat)
      requires Ready() && i < NINODES && |img.nodes| == |img.inodes| == NINODES && off < WORD && |src| < WORD
      modifies this
      ensures Ready() && |img.nodes| == |img.inodes| == NINODES
      ensures r == -1 <==> off > old(inodes)[i].size || off + |src| > MAXBYTES
      ensures r == -1 ==> img == old(img) && dinodes == old(dinodes) && dirty == old(dirty)
      ensures r != -1 ==> 0 <= r <= a <= |src| && dinodes == old(dinodes)[i := inodes[i]]
      ensures r != -1 ==>
                Content(img, i) == Overwrite(Content(old(img), i), off, src[..a], NewSize(old(inodes)[i].size, off + r))
      ensures r <= avail && (r != -1 && r < |src| ==> Full(img) || avail < |src|)
      ensures r == |src| ==> a == r
      ensures OtherContents(old(img), img, i) && NoNewLoose(old(img), img)
      ensures |dirty| <= |old(dirty)| + 2 * Chunks(|src|) + 4
    {
      NodeIn(img, i);
      a := 0;
      var n := |src|;
      if off > inodes[i].size || (off + n) % WORD < off {
        return -1, 0;
      }
      if off + n > MAXBYTES {
        return -1, 0;
      }
      ghost var u, d0 := img, dirty;
      var tot;
      ghost var y;
      tot, a, y := WriteBlocks(i, off, src, avail);
      ghost var w := img;
      NodeIn(w, i);
      Grown(u, w, i, off, src, a, tot);
      WroteContent(u, w, i, off, src, a, tot);
      if off + tot > inodes[i].size {
        inodes := inodes[i := inodes[i].(size := off + tot)];
      }
      img := img.(inodes := inodes);
      TallyBound(u, img, d0, dirty, i, y, off, n);
      Iupdate(i);
      return tot, a;
    }

    /** One turn of readi's loop; the block is always there. */
    method ReadBlock(i: nat, off: nat, tot: nat, m: nat) returns (piece: seq<nat>)
      requires Ready() && i < NINODES && |img.nodes| == |img.inodes| == NINODES
      requires off + tot < img.inodes[i].size && off + tot + m <= img.inodes[i].size && (off + tot) % BSIZE + m <= BSIZE
      modifies this
      ensures Ready() && img == old(img) && dinodes == old(dinodes) && dirty == old(dirty)
      ensures Content(img, i)[off..off + tot] + piece == Content(img, i)[off..off + tot + m]
    {
      var o := off + tot;
      Present(img, i, o);
      var addr;
      ghost var maps;
      addr, maps := Bmap(i, o / BSIZE);
      SlotIn(img, i, o / BSIZE);
      SliceOf(img, i, off, tot, m);
      piece := blocks[addr][o % BSIZE..o % BSIZE + m];
    }

    /** readi: the exact slice, clipped to the size. Only `room` bytes can be stored at the
        destination. Nothing is allocated or logged. */
    method Readi(i: nat, off: nat, n: nat, room: nat) returns (r: int, data: seq<nat>)
      requires Ready() && i < NINODES && |img.nodes| == |img.inodes| == NINODES && off < WORD && n < WORD
      modifies this
      ensures Ready() && img == old(img) && dinodes == old(dinodes) && dirty == old(dirty)
      ensures off > inodes[i].size || off + n >= WORD ==> r == 0 && data == []
      ensures off <= inodes[i].size && off + n < WORD ==>
                var m := if off + n > inodes[i].size then inodes[i].size - off else n;
                if room < m then r == -1 && data == Content(img, i)[off..off + room]
                else r == m && data == Content(img, i)[off..off + m]
    {
      NodeIn(img, i);
      data := [];
      if off > inodes[i].size || (off + n) % WORD < off {
        return 0, [];
      }
      var n := if off + n > inodes[i].size then inodes[i].size - off else n;
      var tot := 0;
      while tot < n
        invariant tot <= n && tot <= room && Ready() && img == old(img) && dinodes == old(dinodes)
                  && dirty == old(dirty)
        invariant data == Content(img, i)[off..off + tot]
      {
        var m := if n - tot < BSIZE - (off + tot) % BSIZE then n - tot else BSIZE - (off + tot) % BSIZE;
        var got := if room - tot < m then room - tot else m;
        var piece := ReadBlock(i, off, tot, got);
        data := data + piece;
        if got < m {
          return -1, data;
        }
        tot := tot + m;
      }
      return tot, data;
    }

    /** While an inode is being truncated the model already has size 0 for it. */
    ghost predicate Truncating(i: nat, size: nat)
      reads this
    {
      && Wf(img) && i < NINODES && |img.nodes| == |img.inodes| == NINODES && |dinodes| == NINODES
      && img.inodes[i].size == 0
      && inodes == img.inodes[i := img.inodes[i].(size := size)]
    }

    /** itrunc's first loop. */
    method FreeDirects(i: nat, ghost size: nat)
      requires Truncating(i, size) && blocks == img.blocks
      modifies this
      ensures Truncating(i, size) && blocks == img.blocks && dinodes == old(dinodes) && Shrunk(old(img), img, i)
      ensures img.nodes[i].ind == old(img).nodes[i].ind && forall bn :: bn in img.nodes[i].slots ==> bn >= NDIRECT
      ensures dirty == old(dirty) + Freed(old(img), img)
    {
      ghost var u := img;
      ShrunkNot(u, i);
      for k := 0 to NDIRECT
        invariant Truncating(i, size) && blocks == img.blocks && dinodes == old(dinodes) && Shrunk(u, img, i)
        invariant img.nodes[i].ind == u.nodes[i].ind && forall bn :: bn in img.nodes[i].slots ==> bn >= k
        invariant dirty == old(dirty) + Freed(u, img)
      {
        NodeIn(img, i);
        if inodes[i].addrs[k] != 0 {
          ghost var t := img;
          FreeDirect(i, k, size);
          ShrunkTwice(u, t, img, i);
          FreedOne(u, t, img, t.inodes[i].addrs[k]);
        }
      }
    }

    /** One direct block. */
    method FreeDirect(i: nat, k: nat, ghost size: nat)
      requires Truncating(i, size) && blocks == img.blocks && k < NDIRECT
      requires |inodes[i].addrs| == NDIRECT + 1 && inodes[i].addrs[k] != 0
      modifies this
      ensures Truncating(i, size) && blocks == img.blocks && dinodes == old(dinodes) && Shrunk(old(img), img, i)
      ensures img.nodes[i].ind == old(img).nodes[i].ind && img.nodes[i].slots == old(img).nodes[i].slots - {k}
      ensures var b := old(inodes)[i].addrs[k];
              && b in old(img).owner && img.owner.Keys == old(img).owner.Keys - {b}
              && dirty == old(dirty) + {Bblock(SB, b)}
    {
      ghost var t := img;
      var b := inodes[i].addrs[k];
      DropDirect(t, i, k, b);
      Bfree(b);
      inodes := inodes[i := inodes[i].(addrs := inodes[i].addrs[k := 0])];
      img := Released(Detached(t, i, k), b);
    }

    /** One turn of itrunc's second loop. */
    method FreeEntry(i: nat, g: nat, bp: seq<nat>, j: nat, ghost size: nat, ghost u: Image, ghost d: set<nat>)
      requires Truncating(i, size) && Shrunk(u, img, i) && |bp| == BSIZE && j < NINDIRECT
      requires img.nodes[i].ind == g < |img.blocks| && g != 0 && blocks == img.blocks[g := bp]
               && EntriesLeft(bp, img.nodes[i].slots, j)
      requires dirty == d + Freed(u, img)
      modifies this
      ensures Truncating(i, size) && dinodes == old(dinodes) && Shrunk(u, img, i)
      ensures img.nodes[i].ind == g < |img.blocks| && blocks == img.blocks[g := bp]
              && EntriesLeft(bp, img.nodes[i].slots, j + 1)
      ensures dirty == d + Freed(u, img)
    {
      ghost var t := img;
      NodeIn(t, i);
      var b := Word(bp, j);
      if b != 0 {
        FreeWord(i, g, bp, j, b, size);
        ShrunkTwice(u, t, img, i);
        FreedOne(u, t, img, b);
      }
    }

    /** The block `b` that entry `j` names is freed. */
    method FreeWord(i: nat, g: nat, bp: seq<nat>, j: nat, b: nat, ghost size: nat)
      requires Truncating(i, size) && |bp| == BSIZE && j < NINDIRECT && Get(img.nodes[i].slots, NDIRECT + j) == b != 0
      requires img.nodes[i].ind == g < |img.blocks| && g != 0 && blocks == img.blocks[g := bp]
      modifies this
      ensures Truncating(i, size) && dinodes == old(dinodes) && Shrunk(old(img), img, i)
      ensures img.nodes[i].ind == g < |img.blocks| && blocks == img.blocks[g := bp]
      ensures img.nodes[i].slots == old(img).nodes[i].slots - {NDIRECT + j}
      ensures b in old(img).owner && img.owner.Keys == old(img).owner.Keys - {b}
              && dirty == old(dirty) + {Bblock(SB, b)}
    {
      ghost var t := img;
      DropEntry(t, i, j, b, bp);
      Bfree(b);
      img := Released(DetachedEntry(t, i, j), b);
    }

    /** itrunc's second loop: the entries of the indirect block, which are not cleared
        because the block itself is freed next. */
    method FreeEntries(i: nat, g: nat, ghost size: nat)
      requires Truncating(i, size) && blocks == img.blocks && g == img.nodes[i].ind != 0 && g < |blocks|
      requires forall bn :: bn in img.nodes[i].slots ==> bn >= NDIRECT
      modifies this
      ensures Truncating(i, size) && dinodes == old(dinodes) && Shrunk(old(img), img, i)
      ensures img.nodes[i].ind == g < |img.blocks| && img.nodes[i].slots == map[]
              && blocks == img.blocks[g := old(blocks)[g]]
      ensures dirty == old(dirty) + Freed(old(img), img)
    {
      ghost var u := img;
      NodeIn(img, i);
      ShrunkNot(u, i);
      var bp := blocks[g];
      for j := 0 to NINDIRECT
        invariant Truncating(i, size) && dinodes == old(dinodes) && Shrunk(u, img, i) && |bp| == BSIZE
        invariant img.nodes[i].ind == g < |img.blocks| && blocks == img.blocks[g := bp]
        invariant EntriesLeft(bp, img.nodes[i].slots, j)
        invariant dirty == old(dirty) + Freed(u, img)
      {
        FreeEntry(i, g, bp, j, size, u, old(dirty));
      }
    }

    /** itrunc: every block of the file is free afterwards, and the file is empty. It logs the
        bitmap blocks of the file's blocks and the inode's block. */
    method Itrunc(i: nat)
      requires Ready() && i < NINODES && |img.nodes| == |img.inodes| == NINODES
      modifies this
      ensures Ready() && |img.nodes| == |img.inodes| == NINODES && dinodes == old(dinodes)[i := inodes[i]]
      ensures inodes[i].size == 0 && img.nodes[i] == Node(0, map[]) && Content(img, i) == []
      ensures forall c :: c in img.owner <==>
                c in old(img).owner && (old(img).owner[c].Loose? || old(img).owner[c].i != i)
      ensures forall c :: c in img.owner ==> img.owner[c] == old(img).owner[c]
      ensures OtherContents(old(img), img, i)
      ensures dirty == old(dirty) + FileMaps(old(img), i) + {Iblock(SB, i)}
    {
      ghost var u, size := img, img.inodes[i].size;
      Emptied(u, i);
      img := Sized(u, i, 0);
      assert inodes == img.inodes[i := img.inodes[i].(size := size)];
      FreeDirects(i, size);
      FreeIndirect(i, size, Sized(u, i, 0), old(dirty));
      inodes := inodes[i := inodes[i].(size := 0)];
      AllGone(u, img, i);
      AllFreed(u, img, i);
      Iupdate(i);
    }

    /** The indirect block and the blocks behind it, if there are any. */
    method FreeIndirect(i: nat, ghost size: nat, ghost u: Image, ghost d: set<nat>)
      requires Truncating(i, size) && blocks == img.blocks && Shrunk(u, img, i) && dirty == d + Freed(u, img)
      requires forall bn :: bn in img.nodes[i].slots ==> bn >= NDIRECT
      modifies this
      ensures Truncating(i, size) && blocks == img.blocks && dinodes == old(dinodes) && Shrunk(u, img, i)
      ensures dirty == d + Freed(u, img) && img.nodes[i].ind == 0
      ensures forall bn :: bn in img.nodes[i].slots ==> bn >= NDIRECT
    {
      NodeIn(img, i);
      if inodes[i].addrs[NDIRECT] != 0 {
        var g := inodes[i].addrs[NDIRECT];
        ghost var t := img;
        FreeEntries(i, g, size);
        ghost var v := img;
        ShrunkTwice(u, t, v, i);
        FreedTwice(u, t, v);
        FreeIndBlock(i, g, size, u, d);
      }
    }

    /** The indirect block, once the blocks behind it are free. */
    method FreeIndBlock(i: nat, g: nat, ghost size: nat, ghost u: Image, ghost d: set<nat>)
      requires Truncating(i, size) && Shrunk(u, img, i) && dirty == d + Freed(u, img)
      requires img.nodes[i].ind == g != 0 && img.nodes[i].slots == map[] && g < |img.blocks|
      requires g < |blocks| && |blocks[g]| == BSIZE && blocks == img.blocks[g := blocks[g]]
      modifies this
      ensures Truncating(i, size) && blocks == img.blocks && dinodes == old(dinodes) && Shrunk(u, img, i)
      ensures dirty == d + Freed(u, img) && img.nodes[i] == Node(0, map[])
    {
      ghost var v := img;
      ghost var w := DropInd(v, i, g, blocks[g]);
      Bfree(g);
      inodes := inodes[i := inodes[i].(addrs := inodes[i].addrs[NDIRECT := 0])];
      img := w;
      ShrunkTwice(u, v, w, i);
      FreedOne(u, v, w, g);
    }

    /** filewrite to an inode, from its begin_op to its end_op: `off` is the file's offset, and
        `logged` what each transaction logged, at most MAXOPBLOCKS blocks. All is written unless
        the range is bad, the source ends or the disk is full, and then it is not. */
    method Filewrite(i: nat, off: nat, src: seq<nat>, avail: nat)
      returns (ret: int, off': nat, ghost a: nat, ghost logged: seq<set<nat>>)
      requires Ready() && i < NINODES && |img.nodes| == |img.inodes| == NINODES && off < WORD && |src| < 0x8000_0000
      requires MAXOPBLOCKS >= 6
      modifies this
      ensures Ready() && |img.nodes| == |img.inodes| == NINODES && NoNewLoose(old(img), img)
      ensures off <= off' && WroteFile(old(img), img, i, off, src, a, off' - off)
      ensures ret == if off' == off + |src| then |src| else -1
      ensures ret == -1 ==> Full(img) || !CanWrite(old(inodes)[i].size, off, |src|, avail)
      ensures ret != -1 ==> CanWrite(old(inodes)[i].size, off, |src|, avail)
      ensures forall k :: 0 <= k < |logged| ==> |logged[k]| <= MAXOPBLOCKS
    {
      ghost var u := img;
      NodeIn(u, i);
      var max := (MAXOPBLOCKS - 1 - 1 - 2) / 2 * BSIZE;
      var n, k := |src|, 0;
      a, off', logged := 0, off, [];
      OverwriteNothing(u, i, off, src);
      while k < n
        invariant k == a <= n && off' == off + k && Ready() && |img.nodes| == |img.inodes| == NINODES
                  && NoNewLoose(u, img)
        invariant WroteFile(u, img, i, off, src, k, k) && off' < WORD
        invariant k > 0 ==> CanWrite(u.inodes[i].size, off, k, avail)
        invariant forall m :: 0 <= m < |logged| ==> |logged[m]| <= MAXOPBLOCKS
      {
        var n1 := if n - k > max then max else n - k;
        var r;
        ghost var done;
        SizeSoFar(u, img, i, off, src, k);
        r, a, done := WriteChunk(i, off, src, avail, k, n1, u);
        logged := logged + [dirty];
        if r > 0 {
          off' := off' + r;
        }
        assert off' - off == done;
        if r != n1 {
          return -1, off', a, logged;
        }
        k := k + r;
      }
      return n, off', a, logged;
    }

    /** One transaction of filewrite. */
    method WriteChunk(i: nat, off: nat, src: seq<nat>, avail: nat, k: nat, n1: nat, ghost u: Image)
      returns (r: int, ghost a: nat, ghost done: nat)
      requires Ready() && i < NINODES && |img.nodes| == |img.inodes| == NINODES && |src| < 0x8000_0000 && off + k < WORD
      requires MAXOPBLOCKS >= 6 && 0 < n1 <= (MAXOPBLOCKS - 4) / 2 * BSIZE && k + n1 <= |src|
      requires WroteFile(u, img, i, off, src, k, k) && NoNewLoose(u, img)
      modifies this
      ensures Ready() && |img.nodes| == |img.inodes| == NINODES && NoNewLoose(u, img) && -1 <= r <= n1
      ensures |dirty| <= MAXOPBLOCKS
      ensures WroteFile(u, img, i, off, src, a, done) && done == (if r > 0 then k + r else k)
      ensures r == n1 ==> a == done
      ensures r == -1 <==> off + k > old(inodes)[i].size || off + k + n1 > MAXBYTES
      ensures r == n1 ==> k + n1 <= avail
      ensures r != -1 && r < n1 ==> Full(img) || avail < k + n1
    {
      ghost var t := img;
      dirty := {}; // begin_op
      r, a := Writei(i, off + k, src[k..k + n1], if k < avail then avail - k else 0);
      ChunkBound(n1, (MAXOPBLOCKS - 4) / 2 * BSIZE);
      a, done := WroteMore(u, t, img, i, off, src, k, n1, r, a);
    }

    /** Any sequence of reads, writes and truncations: every file behaves as one byte
        sequence, and afterwards every block in use is held by exactly one slot. */
    method Run(ops: seq<Op>) returns (results: seq<Result>, ghost trace: seq<View>)
      requires Ready() && |img.nodes| == |img.inodes| == NINODES && NoLoose(img)
      modifies this
      ensures Ready() && |img.nodes| == |img.inodes| == NINODES && NoLoose(img)
      ensures FileRun(ops, results, trace) && trace[0] == Seen(old(img)) && trace[|ops|] == Seen(img)
    {
      trace, results := [Seen(img)], [];
      for k := 0 to |ops|
        invariant Ready() && |img.nodes| == |img.inodes| == NINODES && NoLoose(img)
        invariant |trace| == k + 1 && |results| == k && trace[0] == Seen(old(img)) && trace[k] == Seen(img)
        invariant forall j :: 0 <= j < k ==> FileStep(trace[j], ops[j], results[j], trace[j + 1])
      {
        var r := Step(ops[k]);
        trace, results := trace + [Seen(img)], results + [r];
      }
    }

    method Step(op: Op) returns (x: Result)
      requires Ready() && |img.nodes| == |img.inodes| == NINODES && NoLoose(img)
      modifies this
      ensures Ready() && |img.nodes| == |img.inodes| == NINODES && NoLoose(img)
      ensures FileStep(Seen(old(img)), op, x, Seen(img))
    {
      x := Result(-1, []);
      if op.i < NINODES {
        match op
        case WriteOp(i, off, src, avail) =>
          x := StepWrite(i, off, src, avail);
        case ReadOp(i, off, n, room) =>
          x := StepRead(i, off, n, room);
        case TruncOp(i) =>
          ghost var u := img;
          Itrunc(i);
          OneChanged(u, img, i);
          x := Result(0, []);
      }
    }

    method StepWrite(i: nat, off: nat, src: seq<nat>, avail: nat) returns (x: Result)
      requires Ready() && |img.nodes| == |img.inodes| == NINODES && NoLoose(img) && i < NINODES
      modifies this
      ensures Ready() && |img.nodes| == |img.inodes| == NINODES && NoLoose(img)
      ensures FileStep(Seen(old(img)), WriteOp(i, off, src, avail), x, Seen(img))
    {
      NodeIn(img, i);
      x := Result(-1, []);
      if off < WORD && |src| < WORD {
        ghost var u := img;
        var r;
        ghost var a;
        r, a := Writei(i, off, src, avail);
        OneChanged(u, img, i);
        x := Result(r, []);
        if r != -1 {
          assert Splices(Contents(u), i, off, src, r, a, Contents(img));
        } else {
          assert Contents(img) == Contents(u);
        }
      }
    }

    method StepRead(i: nat, off: nat, n: nat, room: nat) returns (x: Result)
      requires Ready() && |img.nodes| == |img.inodes| == NINODES && NoLoose(img) && i < NINODES
      modifies this
      ensures Ready() && |img.nodes| == |img.inodes| == NINODES && NoLoose(img)
      ensures FileStep(Seen(old(img)), ReadOp(i, off, n, room), x, Seen(img))
    {
      x := Result(0, []);
      if off < WORD && n < WORD {
        var r, data := Readi(i, off, n, room);
        x := Result(r, data);
      }
    }
  }

  lemma {:induction false} IndDone(u: Image, t: Image, i: nat, bn: nat, b: nat)
    requires Wf(u) && SB.nmeta <= b < SB.size && Shaped(u.blocks) && !InUse(u.blocks, b) && t == Taken(u, b)
    requires i < NINODES && |u.inodes| == |u.nodes| == NINODES
    requires NodeOk(u.blocks, u.owner, u.inodes[i], u.nodes[i], i) && u.inodes[i].addrs[NDIRECT] == 0
    ensures Wf(AttachedInd(t, i, b)) && Extended(u, AttachedInd(t, i, b), i, bn, 0)
  {
    TakenKeeps(u, b);
    AttachedIndWf(t, i, b);
    Unfold(AttachedInd(t, i, b));
  }

  lemma {:induction false} ExtendedTwice(u: Image, t: Image, w: Image, i: nat, bn: nat, addr: nat)
    requires Extended(u, t, i, bn, 0) && Extended(t, w, i, bn, addr)
    ensures Extended(u, w, i, bn, addr)
  {
  }

  lemma {:induction false} ExtendedNot(u: Image, i: nat, bn: nat)
    requires i < |u.inodes| && i < |u.nodes|
    ensures Extended(u, u, i, bn, 0)
  {
  }

  lemma {:induction false} LoggedTwice(
    u: Image, t: Image, w: Image, d: set<nat>, d1: set<nat>, d2: set<nat>, i: nat, bn: nat, addr: nat, m1: set<nat>,
    m2: set<nat>)
    requires i < |u.nodes| && i < |t.nodes| && i < |w.nodes| && u.nodes[i].slots == t.nodes[i].slots
    requires u.nodes[i].ind == 0 && t.nodes[i].ind != 0 && w.nodes[i].ind == t.nodes[i].ind
    requires d1 <= d + m1 + {t.nodes[i].ind} && |m1| <= 1 && Logged(t, w, d1, d2, i, bn, addr, m2)
    ensures Logged(u, w, d, d2, i, bn, addr, m1 + m2)
  {
    UnionSize(m1, m2);
  }

  lemma {:induction false} UnionSize(a: set<nat>, b: set<nat>)
    ensures |a + b| <= |a| + |b|
  {
    assert |a + b| == |a| + |b - a| by {
      assert a + b == a + (b - a);
    }
    assert |b| == |b - a| + |b * a| by {
      assert b == (b - a) + (b * a);
    }
  }

  ghost function IndSet(nd: Node): set<nat> { if nd.ind == 0 then {} else {nd.ind} }

  /** What a block lookup logs: the block itself and the indirect block, and one bitmap block
      for each block newly allocated. */
  ghost predicate Logged(
    img: Image, img': Image, dirty: set<nat>, dirty': set<nat>, i: nat, bn: nat, addr: nat, maps: set<nat>) {
    && i < |img.nodes| && i < |img'.nodes|
    && dirty' <= dirty + maps + (if addr == 0 then {} else {addr}) + IndSet(img'.nodes[i])
    && |maps| <= (if bn in img.nodes[i].slots then 0 else 1) + (if img.nodes[i].ind == 0
                                                                && img'.nodes[i].ind != 0 then 1 else 0)
  }

  lemma {:induction false} TakenKeeps(u: Image, b: nat)
    requires Wf(u) && SB.nmeta <= b < SB.size && Shaped(u.blocks) && !InUse(u.blocks, b)
    ensures WfBody(Taken(u, b)) && DataKept(u, Taken(u, b)) && b !in u.owner && Taken(u, b).blocks[b] == ZeroBlock()
    ensures forall g :: SB.nmeta <= g < SB.size && g != b ==> Taken(u, b).blocks[g] == u.blocks[g]
  {
    Unfold(u);
    TakenWf(u, b);
    BblockOk(b);
    assert UseOk(u, b);
  }

  lemma {:induction false} DirectDone(u: Image, t: Image, i: nat, bn: nat, b: nat)
    requires Wf(u) && SB.nmeta <= b < SB.size && Shaped(u.blocks) && !InUse(u.blocks, b) && t == Taken(u, b)
    requires i < NINODES && bn < NDIRECT && |u.inodes| == |u.nodes| == NINODES
    requires NodeOk(u.blocks, u.owner, u.inodes[i], u.nodes[i], i) && u.inodes[i].addrs[bn] == 0
    ensures Wf(Attached(t, i, bn, b)) && Extended(u, Attached(t, i, bn, b), i, bn, b) && bn !in u.nodes[i].slots
  {
    TakenKeeps(u, b);
    AttachedWf(t, i, bn, b);
    Unfold(Attached(t, i, bn, b));
  }

  lemma {:induction false} NoSlot(u: Image, i: nat, j: nat)
    requires Wf(u) && i < NINODES && j < NINDIRECT && |u.inodes| == |u.nodes| == NINODES && u.nodes[i].ind != 0
    requires u.nodes[i].ind < |u.blocks| && |u.blocks[u.nodes[i].ind]| == BSIZE
             && Word(u.blocks[u.nodes[i].ind], j) == 0
    ensures NDIRECT + j !in u.nodes[i].slots
  {
    NodeIn(u, i);
    assert Word(u.blocks[u.nodes[i].ind], j) == Get(u.nodes[i].slots, NDIRECT + j);
    forall bn | bn in u.nodes[i].slots ensures u.nodes[i].slots[bn] != 0 {
      SlotIn(u, i, bn);
    }
  }

  lemma {:induction false} EntryDone(u: Image, t: Image, i: nat, j: nat, b: nat)
    requires Wf(u) && SB.nmeta <= b < SB.size && Shaped(u.blocks) && !InUse(u.blocks, b) && t == Taken(u, b)
    requires i < NINODES && j < NINDIRECT && |u.inodes| == |u.nodes| == NINODES && u.nodes[i].ind != 0
    requires NodeOk(u.blocks, u.owner, u.inodes[i], u.nodes[i], i) && Word(u.blocks[u.nodes[i].ind], j) == 0
    ensures var g := u.nodes[i].ind; g < |t.blocks| && t.blocks[g] == u.blocks[g] && |t.blocks[g]| == BSIZE
    ensures Wf(AttachedEntry(t, i, j, b)) && Extended(u, AttachedEntry(t, i, j, b), i, NDIRECT + j, b)
    ensures NDIRECT + j !in u.nodes[i].slots
  {
    TakenKeeps(u, b);
    Unfold(u);
    var g := u.nodes[i].ind;
    assert Word(u.blocks[g], j) == Get(u.nodes[i].slots, NDIRECT + j);
    assert Owned(u.owner, g, Ind(i)) && SB.nmeta <= g < SB.size;
    AttachedEntryWf(t, i, j, b);
    Unfold(AttachedEntry(t, i, j, b));
  }

  // ---------------------------------------------------------------- writing

  /** `c` with the bytes from `off` on replaced by `s`, cut off at `len`. */
  function Overwrite(c: seq<nat>, off: nat, s: seq<nat>, len: nat): seq<nat>
    requires off <= |c| <= len && (len <= |c| || len <= off + |s|)
  {
    (c[..off] + s + (if off + |s| < |c| then c[off + |s|..] else []))[..len]
  }

  /** Between the images `u` and `w`, exactly the first `a` bytes of `src` were written at
      `off` into the blocks of file `i`, whose blocks up to there are all allocated. */
  ghost predicate Wrote(u: Image, w: Image, i: nat, off: nat, src: seq<nat>, a: nat) {
    && i < |u.inodes| && i < |u.nodes| && OthersSame(u, w, i) && a <= |src| && w.inodes[i].size == u.inodes[i].size
    && NoNewLoose(u, w)
    && (forall bn :: bn in u.nodes[i].slots ==> bn in w.nodes[i].slots)
    && (forall bn: nat :: bn !in w.nodes[i].slots && bn >= off / BSIZE ==> off + a <= bn * BSIZE)
    && (forall o :: off <= o < off + a ==> Byte(w, i, o) == src[o - off])
    && (forall o :: o / BSIZE in u.nodes[i].slots && !(off <= o < off + a) ==> Byte(w, i, o) == Byte(u, i, o))
    && (forall k: nat, o: nat :: k != i ==> Byte(w, k, o) == Byte(u, k, o))
  }

  lemma {:induction false} WroteNothing(u: Image, i: nat, off: nat, src: seq<nat>)
    requires Wf(u) && i < NINODES && i < |u.inodes| && i < |u.nodes| && off <= u.inodes[i].size
    ensures Wrote(u, u, i, off, src, 0)
  {
    NodeIn(u, i);
  }

  lemma {:induction false} ExtendStep(
    u: Image, t: Image, w: Image, i: nat, off: nat, src: seq<nat>, a: nat, bn: nat, addr: nat)
    requires Wf(t) && Wf(w) && i < NINODES && Wrote(u, t, i, off, src, a) && Extended(t, w, i, bn, addr)
    requires bn in t.nodes[i].slots ==> addr == t.nodes[i].slots[bn]
    ensures Wrote(u, w, i, off, src, a)
  {
    NodeIn(t, i);
    NodeIn(w, i);
    forall k, o | 0 <= k < NINODES && o / BSIZE in t.nodes[k].slots ensures Byte(w, k, o) == Byte(t, k, o) {
      ByteKept(t, w, k, o);
    }
    forall o | off <= o < off + a ensures Byte(w, i, o) == src[o - off] {
      assert o / BSIZE in t.nodes[i].slots;
    }
  }

  /** Data block `bn` of file `i` gets new contents: only its bytes change. */
  lemma {:induction false} ByteStored(t: Image, w: Image, i: nat, bn: nat, page: seq<nat>, k: nat, o: nat)
    requires Wf(t) && i < NINODES && |t.nodes| == NINODES && bn in t.nodes[i].slots && |page| == BSIZE
    requires t.nodes[i].slots[bn] < |t.blocks| && w == t.(blocks := t.blocks[t.nodes[i].slots[bn] := page])
    ensures Byte(w, k, o) == if k == i && o / BSIZE == bn then page[o % BSIZE] else Byte(t, k, o)
  {
    SlotIn(t, i, bn);
    if k < NINODES && o / BSIZE in t.nodes[k].slots {
      SlotIn(t, k, o / BSIZE);
    }
  }

  /** `page` with `s` at `r`. */
  function Patch(page: seq<nat>, r: nat, s: seq<nat>): (p: seq<nat>)
    requires r + |s| <= |page|
    ensures |p| == |page|
    ensures forall x :: 0 <= x < |p| ==> p[x] == if r <= x < r + |s| then s[x - r] else page[x]
  {
    page[..r] + s + page[r + |s|..]
  }

  lemma {:induction false} StoreStep(u: Image, t: Image, w: Image, i: nat, off: nat, src: seq<nat>, a: nat, m: nat)
    requires Wf(t) && i < NINODES && Wrote(u, t, i, off, src, a) && a + m <= |src| && (off + a) % BSIZE + m <= BSIZE
    requires |t.nodes| == NINODES && (off + a) / BSIZE in t.nodes[i].slots
    requires var b := t.nodes[i].slots[(off + a) / BSIZE];
             b < |t.blocks| && |t.blocks[b]| == BSIZE
             && w == t.(blocks := t.blocks[b := Patch(t.blocks[b], (off + a) % BSIZE, src[a..a + m])])
    ensures Wrote(u, w, i, off, src, a + m)
  {
    var bn, r := (off + a) / BSIZE, (off + a) % BSIZE;
    var b := t.nodes[i].slots[bn];
    var page := Patch(t.blocks[b], r, src[a..a + m]);
    forall k: nat, o: nat ensures Byte(w, k, o) == if k == i && o / BSIZE == bn then page[o % BSIZE]
    else Byte(t, k, o) {
      ByteStored(t, w, i, bn, page, k, o);
    }
    forall o | o / BSIZE == bn
      ensures page[o % BSIZE] == if off + a <= o < off + a + m then src[o - off] else Byte(t, i, o)
    {
      PatchByte(t.blocks[b], off + a, src[a..a + m], o);
    }
    StoreBytes(u, t, w, i, off, src, a, m);
  }

  lemma {:induction false} PatchByte(page: seq<nat>, at: nat, s: seq<nat>, o: nat)
    requires |page| == BSIZE && at % BSIZE + |s| <= BSIZE && o / BSIZE == at / BSIZE
    ensures Patch(page, at % BSIZE, s)[o % BSIZE] == if at <= o < at + |s| then s[o - at] else page[o % BSIZE]
  {
    assert o % BSIZE - at % BSIZE == o - at;
  }

  /** Bytes off + a .. off + a + m - 1 are now those of `src`; the others are as before. */
  lemma {:induction false} StoreBytes(u: Image, t: Image, w: Image, i: nat, off: nat, src: seq<nat>, a: nat, m: nat)
    requires Wrote(u, t, i, off, src, a) && a + m <= |src| && w.inodes == t.inodes && w.nodes == t.nodes
             && w.owner == t.owner
    requires (off + a) / BSIZE in t.nodes[i].slots && (off + a) % BSIZE + m <= BSIZE
    requires forall k: nat, o: nat :: Byte(w, k, o) == if k == i && off + a <= o < off + a + m then src[o - off]
             else Byte(t, k, o)
    ensures Wrote(u, w, i, off, src, a + m)
  {
    forall bn: nat | bn !in w.nodes[i].slots && bn >= off / BSIZE ensures off + a + m <= bn * BSIZE {
      assert off + a <= bn * BSIZE && bn != (off + a) / BSIZE;
    }
  }

  /** What one turn of the write loop logs. */
  ghost predicate LoggedOne(
    img: Image, img': Image, dirty: set<nat>, dirty': set<nat>, i: nat, bn: nat, addr: nat, maps: set<nat>) {
    && i < |img.nodes| && i < |img'.nodes| && (img.nodes[i].ind != 0 ==> img'.nodes[i].ind == img.nodes[i].ind)
    && dirty' <= dirty + maps + {addr} + IndSet(img'.nodes[i])
    && |maps| <= (if bn in img.nodes[i].slots then 0 else 1) + (if img.nodes[i].ind == 0
                                                                && img'.nodes[i].ind != 0 then 1 else 0)
  }

  // ---------------------------------------------------------------- the write budget

  /** What a write has logged so far: data blocks, bitmap blocks, turns of the loop, and turns
      whose block was newly allocated. */
  datatype Tally = Tally(data: set<nat>, maps: set<nat>, turns: nat, added: nat)

  ghost predicate TallyOk(u: Image, img: Image, d0: set<nat>, d: set<nat>, i: nat, y: Tally) {
    && i < |u.nodes| && i < |img.nodes| && (u.nodes[i].ind != 0 ==> img.nodes[i].ind == u.nodes[i].ind)
    && d <= d0 + y.data + y.maps + IndSet(img.nodes[i])
    && |y.data| <= y.turns
    && |y.maps| <= y.added + (if u.nodes[i].ind == 0 && img.nodes[i].ind != 0 then 1 else 0)
  }

  /** The number of blocks that `n` bytes at `off` touch. */
  function Span(off: nat, n: nat): nat { if n == 0 then 0 else (off + n - 1) / BSIZE - off / BSIZE + 1 }

  /** At most one turn per block; a first block that is only partly overwritten is old. */
  ghost predicate Turns(off: nat, n: nat, y: Tally) {
    y.turns <= Span(off, n) && y.added <= y.turns && (off % BSIZE != 0 && y.turns > 0 ==> y.added < y.turns)
  }

  lemma {:induction false} FirstPresent(u: Image, i: nat, off: nat)
    requires Wf(u) && i < NINODES && i < |u.inodes| && i < |u.nodes| && off <= u.inodes[i].size && off % BSIZE != 0
    ensures off / BSIZE in u.nodes[i].slots
  {
    NodeIn(u, i);
  }

  /** A turn that does not finish ends at a block boundary. */
  lemma {:induction false} NextBlock(off: nat, tot: nat, m: nat, n: nat)
    requires 0 < m <= BSIZE - (off + tot) % BSIZE && tot + m <= n && (tot + m == n || (off + tot + m) % BSIZE == 0)
    ensures tot + m < n ==> (off + tot + m) / BSIZE == (off + tot) / BSIZE + 1
  {
  }

  lemma {:induction false} Counted(
    u: Image, t: Image, w: Image, d0: set<nat>, d: set<nat>, d': set<nat>, i: nat, y: Tally, bn: nat, addr: nat,
    maps: set<nat>, off: nat, n: nat) returns (y': Tally)
    requires TallyOk(u, t, d0, d, i, y) && LoggedOne(t, w, d, d', i, bn, addr, maps) && Turns(off, n, y)
    requires off / BSIZE + y.turns == bn <= (off + n - 1) / BSIZE && n > 0
    requires off % BSIZE != 0 && y.turns == 0 ==> bn in t.nodes[i].slots
    ensures TallyOk(u, w, d0, d', i, y') && Turns(off, n, y') && y'.turns == y.turns + 1
  {
    y' := Tally(y.data + {addr}, y.maps + maps, y.turns + 1, y.added + if bn in t.nodes[i].slots then 0 else 1);
    UnionSize(y.data, {addr});
    UnionSize(y.maps, maps);
  }

  /** The number of blocks that hold `n` bytes. */
  function Chunks(n: nat): nat { (n + (BSIZE - 1)) / BSIZE }

  lemma {:induction false} TallyBound(
    u: Image, img: Image, d0: set<nat>, d: set<nat>, i: nat, y: Tally, off: nat, n: nat)
    requires TallyOk(u, img, d0, d, i, y) && Turns(off, n, y)
    ensures |d + {Iblock(SB, i)}| <= |d0| + 2 * Chunks(n) + 4
  {
    assert y.turns + y.added <= 2 * Chunks(n) + 1;
    var all := d0 + y.data + y.maps + IndSet(img.nodes[i]);
    UnionSize(d0, y.data);
    UnionSize(d0 + y.data, y.maps);
    UnionSize(d0 + y.data + y.maps, IndSet(img.nodes[i]));
    UnionSize(d, {Iblock(SB, i)});
    SubsetSize(d, all);
  }

  lemma {:induction false} SubsetSize(a: set<nat>, b: set<nat>)
    requires a <= b
    ensures |a| <= |b|
  {
    assert b == a + (b - a);
  }

  function NewSize(size: nat, end: nat): nat { if end > size then end else size }

  /** The files other than `i` hold what they held. */
  ghost predicate OtherContents(u: Image, w: Image, i: nat) {
    && |w.inodes| == |u.inodes| && |w.nodes| == |u.nodes|
    && forall k :: 0 <= k < |u.inodes| && k != i ==> Content(w, k) == Content(u, k)
  }

  /** The image once the size is raised to cover what was written. */
  ghost function Sized(w: Image, i: nat, size: nat): Image
    requires i < |w.inodes|
  {
    w.(inodes := w.inodes[i := w.inodes[i].(size := size)])
  }

  lemma {:induction false} Grown(u: Image, w: Image, i: nat, off: nat, src: seq<nat>, a: nat, tot: nat)
    requires Wf(u) && Wf(w) && i < NINODES && |w.inodes| == |u.inodes| == |u.nodes| == NINODES
    requires Wrote(u, w, i, off, src, a) && tot <= a && off <= u.inodes[i].size && off + |src| <= MAXBYTES
    ensures Wf(Sized(w, i, NewSize(u.inodes[i].size, off + tot)))
  {
    NodeIn(u, i);
    Unfold(w);
    var size := NewSize(u.inodes[i].size, off + tot);
    forall bn: nat | bn !in w.nodes[i].slots ensures size <= bn * BSIZE {
      assert bn !in u.nodes[i].slots;
    }
    SizedWf(w, i, size);
    Unfold(Sized(w, i, size));
  }

  lemma {:induction false} WroteContent(u: Image, w: Image, i: nat, off: nat, src: seq<nat>, a: nat, tot: nat)
    requires Wf(u) && i < NINODES && |w.inodes| == |u.inodes| == |u.nodes| == NINODES
    requires Wrote(u, w, i, off, src, a) && tot <= a && off <= u.inodes[i].size
    ensures var w' := Sized(w, i, NewSize(u.inodes[i].size, off + tot));
            && Content(w', i) == Overwrite(Content(u, i), off, src[..a], NewSize(u.inodes[i].size, off + tot))
            && OtherContents(u, w', i)
  {
    NodeIn(u, i);
    var size, len := u.inodes[i].size, NewSize(u.inodes[i].size, off + tot);
    var w', c := Sized(w, i, len), Content(u, i);
    var d := Overwrite(c, off, src[..a], len);
    forall o | 0 <= o < len ensures Content(w', i)[o] == d[o] {
      assert Content(w', i)[o] == Byte(w', i, o) == Byte(w, i, o);
      if o < size {
        assert o / BSIZE in u.nodes[i].slots;
      }
    }
    assert Content(w', i) == d;
    forall k | 0 <= k < NINODES && k != i ensures Content(w', k) == Content(u, k) {
      forall o | 0 <= o < u.inodes[k].size ensures Content(w', k)[o] == Content(u, k)[o] {
        assert Byte(w', k, o) == Byte(w, k, o) == Byte(u, k, o);
      }
    }
  }

  // ---------------------------------------------------------------- reading

  lemma {:induction false} Present(img: Image, i: nat, o: nat)
    requires Wf(img) && i < NINODES && i < |img.inodes| && i < |img.nodes| && o < img.inodes[i].size
    ensures o / BSIZE in img.nodes[i].slots && o / BSIZE < MAXFILE
  {
    NodeIn(img, i);
  }

  /** The bytes of one block are the next bytes of the file. */
  lemma {:induction false} SliceOf(img: Image, i: nat, off: nat, tot: nat, m: nat)
    requires Wf(img) && i < NINODES && |img.nodes| == |img.inodes| == NINODES && off + tot + m <= img.inodes[i].size
    requires (off + tot) % BSIZE + m <= BSIZE && (off + tot) / BSIZE in img.nodes[i].slots
    requires var b := img.nodes[i].slots[(off + tot) / BSIZE]; b < |img.blocks| && |img.blocks[b]| == BSIZE
    ensures var b, x := img.nodes[i].slots[(off + tot) / BSIZE], (off + tot) % BSIZE;
            Content(img, i)[off..off + tot] + img.blocks[b][x..x + m] == Content(img, i)[off..off + tot + m]
  {
    var b, x := img.nodes[i].slots[(off + tot) / BSIZE], (off + tot) % BSIZE;
    var c := Content(img, i);
    var s, t := img.blocks[b][x..x + m], c[off + tot..off + tot + m];
    forall k | 0 <= k < m ensures s[k] == t[k] {
      assert (off + tot + k) / BSIZE == (off + tot) / BSIZE && (off + tot + k) % BSIZE == x + k;
      assert c[off + tot + k] == Byte(img, i, off + tot + k);
    }
  }

  // ---------------------------------------------------------------- truncating

  /** File `i` lost blocks, which are free; nothing else changed. */
  ghost predicate Shrunk(u: Image, w: Image, i: nat) {
    && OthersSame(u, w, i) && |w.blocks| == |u.blocks| && i < |u.inodes| && w.inodes[i].size == u.inodes[i].size
    && (forall c :: c in w.owner ==> c in u.owner && w.owner[c] == u.owner[c])
    && (forall c :: c in u.owner && (u.owner[c].Loose? || u.owner[c].i != i) ==> c in w.owner)
    && (forall c :: c in u.owner && u.owner[c].Data? && u.owner[c].i != i && c < |u.blocks| ==>
        w.blocks[c] == u.blocks[c])
  }

  /** The bitmap blocks of the blocks that were freed. */
  ghost function Freed(u: Image, w: Image): set<nat> { set b | b in u.owner && b !in w.owner :: Bblock(SB, b) }

  /** The bitmap blocks of the blocks of file `i`. */
  ghost function FileMaps(img: Image, i: nat): set<nat> {
    set b | b in img.owner && !img.owner[b].Loose? && img.owner[b].i == i :: Bblock(SB, b)
  }

  lemma {:induction false} FreedTwice(u: Image, t: Image, w: Image)
    requires t.owner.Keys <= u.owner.Keys && w.owner.Keys <= t.owner.Keys
    ensures Freed(u, w) == Freed(u, t) + Freed(t, w)
  {
  }

  lemma {:induction false} FreedOne(u: Image, t: Image, w: Image, b: nat)
    requires t.owner.Keys <= u.owner.Keys && b in t.owner && w.owner.Keys == t.owner.Keys - {b}
    ensures Freed(u, w) == Freed(u, t) + {Bblock(SB, b)}
  {
    assert Freed(t, w) == {Bblock(SB, b)};
    FreedTwice(u, t, w);
  }

  /** The number of bitmap blocks. */
  const NMAPS: nat := (SB.size - 1) / BPB + 1

  /** itrunc logs at most all bitmap blocks and one more: one transaction holds it on every disk
      with fewer than MAXOPBLOCKS bitmap blocks. */
  lemma {:induction false} TruncBound(img: Image, i: nat)
    requires Wf(img)
    ensures |FileMaps(img, i)| <= NMAPS
    ensures NMAPS < MAXOPBLOCKS ==> |FileMaps(img, i) + {Iblock(SB, i)}| <= MAXOPBLOCKS
  {
    Unfold(img);
    var all := Stretch(SB.bmapstart, NMAPS);
    forall m | m in FileMaps(img, i) ensures m in all {
      var b :| b in img.owner && Bblock(SB, b) == m;
      assert OwnerOk(img.nodes, b, img.owner[b]);
      MapInside(b);
    }
    SubsetSize(FileMaps(img, i), all);
  }

  lemma {:induction false} MapInside(b: nat)
    requires b < SB.size
    ensures SB.bmapstart <= Bblock(SB, b) < SB.bmapstart + NMAPS
  {
    assert b / BPB <= (SB.size - 1) / BPB;
  }

  /** The `n` numbers from `k` on. */
  function Stretch(k: nat, n: nat): (r: set<nat>)
    ensures |r| == n && forall x :: x in r <==> k <= x < k + n
  {
    if n == 0 then {} else Stretch(k, n - 1) + {k + n - 1}
  }

  lemma {:induction false} AllFreed(u: Image, w: Image, i: nat)
    requires forall c :: c in w.owner <==> c in u.owner && (u.owner[c].Loose? || u.owner[c].i != i)
    ensures Freed(u, w) == FileMaps(u, i)
  {
  }

  lemma {:induction false} ShrunkNot(u: Image, i: nat)
    requires i < |u.inodes|
    ensures Shrunk(u, u, i)
  {
  }

  lemma {:induction false} ShrunkTwice(u: Image, t: Image, w: Image, i: nat)
    requires Shrunk(u, t, i) && Shrunk(t, w, i)
    ensures Shrunk(u, w, i)
  {
  }

  /** Clearing a bitmap bit leaves the data blocks alone. */
  lemma {:induction false} ReleasedKeeps(t: Image, b: nat)
    requires WfBody(t) && Owned(t.owner, b, Loose)
    ensures b < SB.size && InUse(t.blocks, b) && WfBody(Released(t, b))
    ensures forall c :: SB.nmeta <= c < SB.size ==> Released(t, b).blocks[c] == t.blocks[c]
  {
    ReleasedWf(t, b);
    BblockOk(b);
  }

  lemma {:induction false} DropDirect(t: Image, i: nat, k: nat, b: nat)
    requires Wf(t) && i < NINODES && |t.nodes| == |t.inodes| == NINODES && t.inodes[i].size == 0 && k < NDIRECT
    requires |t.inodes[i].addrs| == NDIRECT + 1 && t.inodes[i].addrs[k] == b != 0
    ensures Shaped(t.blocks) && b < SB.size && InUse(t.blocks, b) && k in t.nodes[i].slots
    ensures t.nodes[i].slots[k] == b && b in t.owner
    ensures var t' := Detached(t, i, k);
            Shaped(t'.blocks) && InUse(t'.blocks, b) && Wf(Released(t', b)) && Shrunk(t, Released(t', b), i)
  {
    Unfold(t);
    NodeIn(t, i);
    assert t.inodes[i].addrs[k] == Get(t.nodes[i].slots, k);
    DetachedWf(t, i, k);
    ReleasedKeeps(Detached(t, i, k), b);
    Unfold(Released(Detached(t, i, k), b));
  }

  /** The slots are exactly what the entries from `j` on say. */
  ghost predicate EntriesLeft(bp: seq<nat>, slots: map<nat, nat>, j: nat)
    requires |bp| == BSIZE
  {
    && (forall bn :: bn in slots ==> NDIRECT + j <= bn < MAXFILE)
    && (forall k :: j <= k < NINDIRECT ==> Word(bp, k) == Get(slots, NDIRECT + k))
  }

  lemma {:induction false} SameUse(blocks: Blocks, blocks': Blocks, b: nat)
    requires Shaped(blocks) && Shaped(blocks') && b < SB.size && blocks'[..SB.nmeta] == blocks[..SB.nmeta]
    ensures InUse(blocks', b) <==> InUse(blocks, b)
  {
    BblockOk(b);
    assert blocks'[Bblock(SB, b)] == blocks'[..SB.nmeta][Bblock(SB, b)];
    assert blocks[Bblock(SB, b)] == blocks[..SB.nmeta][Bblock(SB, b)];
  }

  /** Clearing a bit commutes with changing a block outside the bitmap. */
  lemma {:induction false} UnmarkElsewhere(blocks: Blocks, g: nat, page: seq<nat>, b: nat)
    requires Shaped(blocks) && SB.nmeta <= g < SB.size && |page| == BSIZE && b < SB.size && InUse(blocks, b)
    ensures Shaped(blocks[g := page]) && InUse(blocks[g := page], b)
    ensures Unmarked(blocks[g := page], b) == Unmarked(blocks, b)[g := page]
  {
    assert blocks[g := page][..SB.nmeta] == blocks[..SB.nmeta];
    SameUse(blocks, blocks[g := page], b);
    BblockOk(b);
  }

  lemma {:induction false} DropEntry(t: Image, i: nat, j: nat, b: nat, bp: seq<nat>)
    requires Wf(t) && i < NINODES && |t.nodes| == |t.inodes| == NINODES && t.inodes[i].size == 0 && j < NINDIRECT
             && |bp| == BSIZE
    requires t.nodes[i].ind != 0 && Get(t.nodes[i].slots, NDIRECT + j) == b != 0
    ensures var g := t.nodes[i].ind;
            && SB.nmeta <= g < SB.size && Shaped(t.blocks) && b < SB.size && b in t.owner
            && Shaped(t.blocks[g := bp]) && InUse(t.blocks[g := bp], b)
    ensures var g, t' := t.nodes[i].ind, DetachedEntry(t, i, j);
            && Shaped(t'.blocks) && InUse(t'.blocks, b) && Wf(Released(t', b)) && Shrunk(t, Released(t', b), i)
            && Unmarked(t.blocks[g := bp], b) == Released(t', b).blocks[g := bp]
  {
    Unfold(t);
    NodeIn(t, i);
    var g := t.nodes[i].ind;
    assert SB.nmeta <= g < SB.size;
    DetachedEntryWf(t, i, j);
    var t' := DetachedEntry(t, i, j);
    ReleasedKeeps(t', b);
    Unfold(Released(t', b));
    UnmarkElsewhere(t'.blocks, g, bp, b);
    assert t'.blocks[g := bp] == t.blocks[g := bp];
  }

  /** A free block may hold anything. */
  lemma {:induction false} FreeBlockAny(t: Image, g: nat, page: seq<nat>)
    requires WfBody(t) && SB.nmeta <= g < SB.size && g !in t.owner && |page| == BSIZE
    ensures WfBody(t.(blocks := t.blocks[g := page]))
  {
    var t' := t.(blocks := t.blocks[g := page]);
    assert t'.blocks[..SB.nmeta] == t.blocks[..SB.nmeta];
    forall c | 0 <= c < SB.size ensures UseOk(t', c) {
      SameUse(t.blocks, t'.blocks, c);
      assert UseOk(t, c);
    }
    forall k | 0 <= k < NINODES ensures NodeOk(t'.blocks, t'.owner, t'.inodes[k], t'.nodes[k], k) {
      NodeFrame(t.blocks, t'.blocks, t.owner, t'.owner, t.inodes[k], t.nodes[k], k);
    }
  }

  lemma {:induction false} DropInd(t: Image, i: nat, g: nat, bp: seq<nat>) returns (w: Image)
    requires Wf(t) && i < NINODES && |t.nodes| == |t.inodes| == NINODES && t.nodes[i].ind == g != 0
             && t.nodes[i].slots == map[]
    requires |bp| == BSIZE && g < |t.blocks|
    ensures Shaped(t.blocks[g := bp]) && g < SB.size && InUse(t.blocks[g := bp], g)
            && |t.inodes[i].addrs| == NDIRECT + 1
    ensures Wf(w) && Shrunk(t, w, i) && w.blocks == Unmarked(t.blocks[g := bp], g)
            && w.nodes == t.nodes[i := Node(0, map[])]
    ensures g in t.owner && w.owner.Keys == t.owner.Keys - {g}
    ensures w.inodes == t.inodes[i := t.inodes[i].(addrs := t.inodes[i].addrs[NDIRECT := 0])]
  {
    Unfold(t);
    NodeIn(t, i);
    DetachedIndWf(t, i);
    var t' := DetachedInd(t, i);
    ReleasedKeeps(t', g);
    UnmarkElsewhere(t'.blocks, g, bp, g);
    FreeBlockAny(Released(t', g), g, bp);
    w := Released(t', g).(blocks := Released(t', g).blocks[g := bp]);
    Unfold(w);
  }

  lemma {:induction false} Emptied(u: Image, i: nat)
    requires Wf(u) && i < NINODES && |u.nodes| == |u.inodes| == NINODES
    ensures Wf(Sized(u, i, 0))
  {
    Unfold(u);
    SizedWf(u, i, 0);
    Unfold(Sized(u, i, 0));
  }

  /** With no slot and no indirect block left, the file owns nothing. */
  lemma {:induction false} AllGone(u: Image, w: Image, i: nat)
    requires Wf(u) && Wf(w) && i < NINODES && |u.nodes| == |u.inodes| == NINODES
    requires Shrunk(Sized(u, i, 0), w, i) && w.nodes[i].ind == 0 && forall bn :: bn in w.nodes[i].slots ==>
               bn >= NDIRECT
    ensures w.nodes[i] == Node(0, map[])
    ensures forall c :: c in w.owner <==> c in u.owner && (u.owner[c].Loose? || u.owner[c].i != i)
    ensures forall c :: c in w.owner ==> w.owner[c] == u.owner[c]
    ensures OtherContents(u, w, i)
  {
    NodeIn(w, i);
    Unfold(w);
    forall c | c in w.owner && !w.owner[c].Loose? ensures w.owner[c].i != i {
      assert OwnerOk(w.nodes, c, w.owner[c]);
    }
    forall k | 0 <= k < NINODES && k != i ensures Content(w, k) == Content(u, k) {
      OtherKept(u, w, i, k);
    }
  }

  lemma {:induction false} OtherKept(u: Image, w: Image, i: nat, k: nat)
    requires Wf(u) && Wf(w) && i < NINODES && k < NINODES && k != i && |u.nodes| == |u.inodes| == NINODES
             && Shrunk(Sized(u, i, 0), w, i)
    ensures Content(w, k) == Content(u, k)
  {
    NodeIn(u, k);
    NodeIn(w, k);
    forall o | 0 <= o < u.inodes[k].size ensures Content(w, k)[o] == Content(u, k)[o] {
      Present(u, k, o);
      SlotIn(u, k, o / BSIZE);
      assert Content(u, k)[o] == Byte(u, k, o) && Content(w, k)[o] == Byte(w, k, o);
    }
  }

  // ---------------------------------------------------------------- chunks

  lemma {:induction false} ChunkBound(n: nat, max: nat)
    requires MAXOPBLOCKS >= 6 && max == (MAXOPBLOCKS - 4) / 2 * BSIZE && n <= max
    ensures 2 * Chunks(n) + 4 <= MAXOPBLOCKS
  {
  }

  /** Between `u` and `w`, the first `a` bytes of `src` were written to the file at `off`, of
      which `done` count, and no other file changed. Writing past the end does nothing. */
  ghost predicate WroteFile(u: Image, w: Image, i: nat, off: nat, src: seq<nat>, a: nat, done: nat) {
    && i < |u.inodes| && OtherContents(u, w, i) && done <= a <= |src|
    && if off > u.inodes[i].size then done == 0 && Content(w, i) == Content(u, i)
       else Content(w, i) == Overwrite(Content(u, i), off, src[..a], NewSize(u.inodes[i].size, off + done))
  }

  /** Is the range good, and is all of the source there? */
  predicate CanWrite(size: nat, off: nat, n: nat, avail: nat) {
    n == 0 || (off <= size && off + n <= MAXBYTES && n <= avail)
  }

  lemma {:induction false} SizeSoFar(u: Image, w: Image, i: nat, off: nat, src: seq<nat>, k: nat)
    requires WroteFile(u, w, i, off, src, k, k)
    ensures i < |w.inodes| && (off > u.inodes[i].size ==> k == 0 && w.inodes[i].size == u.inodes[i].size)
    ensures off <= u.inodes[i].size ==> w.inodes[i].size == NewSize(u.inodes[i].size, off + k)
  {
    assert |Content(w, i)| == w.inodes[i].size && |Content(u, i)| == u.inodes[i].size;
  }

  lemma {:induction false} OverwriteNothing(u: Image, i: nat, off: nat, src: seq<nat>)
    requires i < |u.inodes|
    ensures WroteFile(u, u, i, off, src, 0, 0)
  {
  }

  lemma {:induction false} OverwriteTwice(c: seq<nat>, off: nat, s: seq<nat>, t: seq<nat>, len: nat)
    requires off <= |c| && NewSize(|c|, off + |s|) <= len && (len <= |c| || len <= off + |s| + |t|)
    ensures Overwrite(Overwrite(c, off, s, NewSize(|c|, off + |s|)), off + |s|, t, len) == Overwrite(c, off, s + t, len)
  {
    var d := Overwrite(c, off, s, NewSize(|c|, off + |s|));
    var x, y := Overwrite(d, off + |s|, t, len), Overwrite(c, off, s + t, len);
    forall o | 0 <= o < len ensures x[o] == y[o] {
      OverwriteAt(d, off + |s|, t, len, o);
      OverwriteAt(c, off, s + t, len, o);
      if o < |d| {
        OverwriteAt(c, off, s, |d|, o);
      }
    }
  }

  lemma {:induction false} OverwriteAt(c: seq<nat>, off: nat, s: seq<nat>, len: nat, o: nat)
    requires off <= |c| <= len && (len <= |c| || len <= off + |s|) && o < len
    ensures |Overwrite(c, off, s, len)| == len && (off <= o < off + |s| || o < |c|)
    ensures Overwrite(c, off, s, len)[o] == if off <= o < off + |s| then s[o - off] else c[o]
  {
  }

  lemma {:induction false} SliceJoin(src: seq<nat>, k: nat, n: nat, a: nat)
    requires k + n <= |src| && a <= n
    ensures src[..k] + src[k..k + n][..a] == src[..k + a] && |src[k..k + n][..a]| == a
  {
  }

  lemma {:induction false} WroteMore(
    u: Image, t: Image, w: Image, i: nat, off: nat, src: seq<nat>, k: nat, n: nat, r: int, a: nat)
    returns (a': nat, done: nat)
    requires WroteFile(u, t, i, off, src, k, k) && k + n <= |src| && OtherContents(t, w, i) && i < |t.inodes|
    requires r == -1 ==> w == t
    requires off + k > t.inodes[i].size ==> r == -1
    requires r != -1 ==> 0 <= r <= a <= n && off + k <= t.inodes[i].size
                         && Content(w, i)
                            == Overwrite(Content(t, i), off + k, src[k..k + n][..a],
                                         NewSize(t.inodes[i].size, off + k + r))
    ensures WroteFile(u, w, i, off, src, a', done) && done == (if r > 0 then k + r else k) && (r != -1 ==> a' == k + a)
  {
    a', done := k, k;
    if r != -1 {
      a', done := k + a, k + r;
      JoinWrites(Content(u, i), Content(t, i), off, src, k, n, a, r);
    }
  }

  lemma {:induction false} JoinWrites(c: seq<nat>, t: seq<nat>, off: nat, src: seq<nat>, k: nat, n: nat, a: nat, r: nat)
    requires off <= |c| && k + n <= |src| && r <= a <= n && t == Overwrite(c, off, src[..k], NewSize(|c|, off + k))
    ensures off + k <= |t| && |t| == NewSize(|c|, off + k)
    ensures Overwrite(t, off + k, src[k..k + n][..a], NewSize(|t|, off + k + r)) ==
            Overwrite(c, off, src[..k + a], NewSize(|c|, off + k + r))
  {
    OverwriteSize(c, off, src[..k], NewSize(|c|, off + k));
    SliceJoin(src, k, n, a);
    OverwriteTwice(c, off, src[..k], src[k..k + n][..a], NewSize(|t|, off + k + r));
  }

  // ---------------------------------------------------------------- whole runs

  datatype Op =
    | WriteOp(i: nat, off: nat, src: seq<nat>, avail: nat)
    | ReadOp(i: nat, off: nat, n: nat, room: nat)
    | TruncOp(i: nat)

  ghost function Contents(img: Image): (c: seq<seq<nat>>)
    ensures |c| == |img.inodes| && forall i :: 0 <= i < |c| ==> c[i] == Content(img, i)
  {
    seq(|img.inodes|, i requires 0 <= i < |img.inodes| => Content(img, i))
  }

  /** What an operation returns: a count or -1, and for a read the bytes. */
  datatype Result = Result(r: int, data: seq<nat>)

  /** The files as byte sequences, and whether every block is in use. */
  datatype View = View(files: seq<seq<nat>>, full: bool)

  ghost function Seen(img: Image): View { View(Contents(img), Full(img)) }

  /** What an operation does to files seen as byte sequences, and what it returns. A read
      returns exactly the bytes from `off` on, clipped to the file and to what the destination
      takes. A write fails exactly for a bad range, and stops short only if the disk is full or
      the source ends. */
  ghost predicate FileStep(v: View, op: Op, x: Result, v': View) {
    var c, c' := v.files, v'.files;
    if op.i >= |c| then v' == v && x.r == -1
    else match op
      case TruncOp(i) => c' == c[i := []] && x.r == 0
      case ReadOp(i, off, n, room) => v' == v && x == Fetched(c[i], off, n, room)
      case WriteOp(i, off, src, avail) =>
        if off > |c[i]| || off + |src| > MAXBYTES then v' == v && x.r == -1
        else && 0 <= x.r <= avail && (x.r < |src| ==> v'.full || avail < |src|)
             && exists a: nat :: Splices(c, i, off, src, x.r, a, c')
  }

  /** What readi returns of contents `c`. */
  function Fetched(c: seq<nat>, off: nat, n: nat, room: nat): Result {
    if off > |c| || off + n >= WORD then Result(0, [])
    else
      var m := if off + n > |c| then |c| - off else n;
      if room < m then Result(-1, c[off..off + room]) else Result(m, c[off..off + m])
  }

  /** The first `a` bytes of `src` were stored and `r` of them counted: all of them, or a write
      that stopped short. */
  ghost predicate Splices(c: seq<seq<nat>>, i: nat, off: nat, src: seq<nat>, r: nat, a: nat, c': seq<seq<nat>>)
    requires i < |c| && off <= |c[i]|
  {
    && r <= a <= |src| && (r == |src| ==> a == r)
    && c' == c[i := Overwrite(c[i], off, src[..a], NewSize(|c[i]|, off + r))]
  }

  ghost predicate FileStepAt(ops: seq<Op>, results: seq<Result>, trace: seq<View>, k: nat)
    requires k < |ops| == |results| && |trace| == |ops| + 1
  {
    FileStep(trace[k], ops[k], results[k], trace[k + 1])
  }

  /** A run of operations with their results. */
  ghost predicate FileRun(ops: seq<Op>, results: seq<Result>, trace: seq<View>) {
    && |results| == |ops| && |trace| == |ops| + 1
    && forall k :: 0 <= k < |ops| ==> FileStepAt(ops, results, trace, k)
  }

  /** The file stays as it is while it is neither written nor truncated. */
  lemma {:induction false} FileStays(ops: seq<Op>, results: seq<Result>, trace: seq<View>, i: nat, j: nat, k: nat)
    requires FileRun(ops, results, trace) && j <= k <= |ops| && i < |trace[j].files|
    requires forall m :: j <= m < k ==> ops[m].ReadOp? || ops[m].i != i
    ensures i < |trace[k].files| && trace[k].files[i] == trace[j].files[i]
    decreases k
  {
    if j < k {
      FileStays(ops, results, trace, i, j, k - 1);
      assert FileStepAt(ops, results, trace, k - 1);
    }
  }

  /** What a completed write stored is what a read returns, whatever is done to other files and
      read from this one in between. */
  lemma {:induction false} ReadsBack(ops: seq<Op>, results: seq<Result>, trace: seq<View>, j: nat, k: nat)
    requires FileRun(ops, results, trace) && j < k < |ops| && ops[j].WriteOp? && ops[j].i < |trace[j].files|
    requires results[j].r == |ops[j].src|
    requires ops[k].ReadOp? && ops[k].i == ops[j].i && ops[k].off == ops[j].off
    requires ops[k].n == |ops[j].src| <= ops[k].room
    requires forall m :: j < m < k ==> ops[m].ReadOp? || ops[m].i != ops[j].i
    ensures results[k] == Result(|ops[j].src|, ops[j].src)
  {
    var i, off, src := ops[j].i, ops[j].off, ops[j].src;
    assert FileStepAt(ops, results, trace, j) && FileStepAt(ops, results, trace, k);
    var c := trace[j].files;
    var a: nat :| Splices(c, i, off, src, |src|, a, trace[j + 1].files);
    FileStays(ops, results, trace, i, j + 1, k);
    SpliceBack(c[i], off, src);
  }

  lemma {:induction false} SpliceBack(c: seq<nat>, off: nat, src: seq<nat>)
    requires off <= |c|
    ensures var w := Overwrite(c, off, src[..|src|], NewSize(|c|, off + |src|));
            |w| >= off + |src| && w[off..off + |src|] == src
  {
    var w := Overwrite(c, off, src[..|src|], NewSize(|c|, off + |src|));
    forall k | 0 <= k < |src| ensures |w| >= off + |src| && w[off + k] == src[k] {
      OverwriteAt(c, off, src[..|src|], NewSize(|c|, off + |src|), off + k);
    }
    OverwriteSize(c, off, src[..|src|], NewSize(|c|, off + |src|));
  }

  lemma {:induction false} OverwriteSize(c: seq<nat>, off: nat, s: seq<nat>, len: nat)
    requires off <= |c| <= len && (len <= |c| || len <= off + |s|)
    ensures |Overwrite(c, off, s, len)| == len
  {
  }

  lemma {:induction false} OneChanged(u: Image, w: Image, i: nat)
    requires OtherContents(u, w, i) && i < |u.inodes|
    ensures Contents(w) == Contents(u)[i := Content(w, i)]
  {
  }

  // ---------------------------------------------------------------- block ownership

  /** The places where a block number can be stored. */
  datatype Holder = Direct(i: nat, k: nat) | Indirect(i: nat) | Entry(i: nat, j: nat)

  ghost predicate Holds(img: Image, h: Holder, b: nat) {
    && h.i < |img.inodes| && |img.inodes[h.i].addrs| == NDIRECT + 1
    && match h
       case Direct(i, k) => k < NDIRECT && img.inodes[i].addrs[k] == b
       case Indirect(i) => img.inodes[i].addrs[NDIRECT] == b
       case Entry(i, j) =>
         var g := img.inodes[i].addrs[NDIRECT];
         g != 0 && g < |img.blocks| && |img.blocks[g]| == BSIZE && j < NINDIRECT && Word(img.blocks[g], j) == b
  }

  /** No block is marked in use without being recorded. */
  ghost predicate NoLoose(img: Image) {
    forall c :: c in img.owner ==> !img.owner[c].Loose?
  }

  function OwnerFor(h: Holder): Owner {
    match h
    case Direct(i, k) => Data(i, k)
    case Indirect(i) => Ind(i)
    case Entry(i, j) => Data(i, NDIRECT + j)
  }

  lemma {:induction false} HolderOwns(img: Image, h: Holder, b: nat)
    requires Wf(img) && Holds(img, h, b) && b != 0
    ensures Owned(img.owner, b, OwnerFor(h)) && SB.nmeta <= b < SB.size
  {
    Unfold(img);
    NodeIn(img, h.i);
    var nd := img.nodes[h.i];
    match h
    case Direct(i, k) => assert img.inodes[i].addrs[k] == Get(nd.slots, k);
    case Indirect(i) =>
    case Entry(i, j) => assert Word(img.blocks[nd.ind], j) == Get(nd.slots, NDIRECT + j);
  }

  lemma {:induction false} OwnedIsHeld(img: Image, b: nat) returns (h: Holder)
    requires Wf(img) && NoLoose(img) && b in img.owner
    ensures Holds(img, h, b) && b != 0
  {
    Unfold(img);
    assert OwnerOk(img.nodes, b, img.owner[b]);
    NodeIn(img, img.owner[b].i);
    match img.owner[b]
    case Data(i, bn) =>
      if bn < NDIRECT {
        h := Direct(i, bn);
        assert img.inodes[i].addrs[bn] == Get(img.nodes[i].slots, bn);
      } else {
        h := Entry(i, bn - NDIRECT);
        assert Word(img.blocks[img.nodes[i].ind], bn - NDIRECT) == Get(img.nodes[i].slots, bn);
      }
    case Ind(i) => h := Indirect(i);
  }

  /** At operation boundaries a block is marked in use exactly when it is metadata or one slot
      of one inode holds it, and no second slot does. */
  lemma {:induction false} HeldOnce(img: Image, b: nat)
    requires Wf(img) && NoLoose(img) && 0 < b < SB.size
    ensures Shaped(img.blocks)
    ensures InUse(img.blocks, b) <==> b < SB.nmeta || exists h :: Holds(img, h, b)
    ensures forall h, h' :: Holds(img, h, b) && Holds(img, h', b) ==> h == h'
    ensures forall h :: Holds(img, h, b) ==> b >= SB.nmeta
  {
    Unfold(img);
    assert UseOk(img, b);
    if b in img.owner {
      var h := OwnedIsHeld(img, b);
    }
    forall h | Holds(img, h, b) ensures Owned(img.owner, b, OwnerFor(h)) && b >= SB.nmeta {
      HolderOwns(img, h, b);
    }
    forall h, h' | Holds(img, h, b) && Holds(img, h', b) ensures h == h' {
      assert OwnerFor(h) == OwnerFor(h');
    }
  }
}
