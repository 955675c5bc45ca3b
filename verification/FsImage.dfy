/** The file system's blocks as seen through the buffer cache (kernel/fs.c): the free-block
    bitmap, inodes with direct and indirect block addresses, and which inode slot each
    allocated block belongs to.

    An `Image` is well formed when the bitmap, the addresses stored in inodes and indirect
    blocks, and the owner of each block agree. Each inode represents a flat map `slots`
    from block number within the file to disk block. */
module FsImage {
  import opened Params

  const BSIZE: nat := 1024
  const BPB: nat := 8192                // bitmap bits per block
  const NINDIRECT: nat := 256           // BSIZE / sizeof(uint)
  const MAXFILE: nat := NDIRECT + NINDIRECT
  const MAXBYTES: nat := MAXFILE * BSIZE
  const WORD: nat := 0x1_0000_0000      // block numbers are 32-bit

  const NDIRECT: Small
  const NINODES: nat
  type Small = n: nat | 0 < n <= 252 witness 12   // an inode fits into a block

  /** The layout from the super block: `size` blocks of which the first `nmeta` hold the
      super block, the log, the inodes and the bitmap, which starts at `bmapstart`. */
  datatype SuperBlock = SuperBlock(size: nat, bmapstart: nat, inodestart: nat, nmeta: nat)

  /** The bitmap has a bit for every block and is itself not a data block. */
  predicate SuperOk(sb: SuperBlock) {
    0 < sb.nmeta <= sb.size < WORD && Bblock(sb, sb.size - 1) < sb.nmeta
  }

  /** BBLOCK: the bitmap block that holds the bit of block `b`. */
  function Bblock(sb: SuperBlock, b: nat): nat { b / BPB + sb.bmapstart }

  /** IPB and IBLOCK: the block that holds inode `i`. An inode takes 12 bytes and its addresses. */
  function Iblock(sb: SuperBlock, i: nat): nat { i / (BSIZE / (16 + 4 * NDIRECT)) + sb.inodestart }

  type Layout = sb: SuperBlock | SuperOk(sb) witness SuperBlock(1, 0, 0, 1)

  const SB: Layout

  // ---------------------------------------------------------------- bits

  /** 1 << k. */
  function Mask(k: nat): nat { if k == 0 then 1 else 2 * Mask(k - 1) }

  /** (x & 1 << k) != 0. */
  predicate HasBit(x: nat, k: nat) { if k == 0 then x % 2 == 1 else HasBit(x / 2, k - 1) }

  /** x | 1 << k, for a bit that is clear, is a sum. */
  lemma {:induction false} BitSet(x: nat, k: nat, j: nat)
    requires !HasBit(x, k)
    ensures HasBit(x + Mask(k), j) <==> j == k || HasBit(x, j)
  {
    if k == 0 {
      assert (x + 1) / 2 == x / 2;
    } else {
      assert (x + 2 * Mask(k - 1)) / 2 == x / 2 + Mask(k - 1) && (x + 2 * Mask(k - 1)) % 2 == x % 2;
      if j > 0 {
        BitSet(x / 2, k - 1, j - 1);
      }
    }
  }

  lemma {:induction false} BitBelow(x: nat, k: nat)
    requires HasBit(x, k)
    ensures x >= Mask(k) && !HasBit(x - Mask(k), k)
  {
    if k > 0 {
      BitBelow(x / 2, k - 1);
      assert (x - 2 * Mask(k - 1)) / 2 == x / 2 - Mask(k - 1);
    }
  }

  /** x & ~(1 << k), for a bit that is set, is a difference. */
  lemma {:induction false} BitCleared(x: nat, k: nat, j: nat)
    requires HasBit(x, k)
    ensures x >= Mask(k) && (HasBit(x - Mask(k), j) <==> j != k && HasBit(x, j))
  {
    BitBelow(x, k);
    BitSet(x - Mask(k), k, j);
  }

  // ---------------------------------------------------------------- words

  /** The 32-bit word `j` of a block, little endian. */
  function Word(block: seq<nat>, j: nat): nat
    requires |block| == BSIZE && j < NINDIRECT
  {
    block[4 * j] + 0x100 * block[4 * j + 1] + 0x1_0000 * block[4 * j + 2] + 0x100_0000 * block[4 * j + 3]
  }

  function SetWord(block: seq<nat>, j: nat, x: nat): seq<nat>
    requires |block| == BSIZE && j < NINDIRECT
  {
    block[4 * j := x % 0x100][4 * j + 1 := x / 0x100 % 0x100]
         [4 * j + 2 := x / 0x1_0000 % 0x100][4 * j + 3 := x / 0x100_0000 % 0x100]
  }

  lemma Bytes(x: nat)
    requires x < WORD
    ensures x % 0x100 + 0x100 * (x / 0x100 % 0x100)
            + 0x1_0000 * (x / 0x1_0000 % 0x100) + 0x100_0000 * (x / 0x100_0000 % 0x100) == x
  {
    var a := x / 0x100;
    var b := a / 0x100;
    assert x / 0x1_0000 == b && x / 0x100_0000 == b / 0x100;
  }

  /** Storing a word and reading words back. */
  lemma {:induction false} WordRoundTrip(block: seq<nat>, j: nat, x: nat, k: nat)
    requires |block| == BSIZE && j < NINDIRECT && k < NINDIRECT && x < WORD
    ensures |SetWord(block, j, x)| == BSIZE
    ensures Word(SetWord(block, j, x), k) == if k == j then x else Word(block, k)
  {
    Bytes(x);
  }

  function ZeroBlock(): seq<nat> { seq(BSIZE, _ => 0) }

  lemma {:induction false} WordsZero(j: nat)
    requires j < NINDIRECT
    ensures Word(ZeroBlock(), j) == 0
  {
  }

  // ---------------------------------------------------------------- the bitmap

  type Blocks = seq<seq<nat>>

  ghost predicate Shaped(blocks: Blocks) {
    |blocks| == SB.size && forall b :: 0 <= b < SB.size ==> |blocks[b]| == BSIZE
  }

  predicate BitOf(block: seq<nat>, bi: nat)
    requires |block| == BSIZE && bi < BPB
  {
    HasBit(block[bi / 8], bi % 8)
  }

  function Mark(block: seq<nat>, bi: nat): (r: seq<nat>)
    requires |block| == BSIZE && bi < BPB
    ensures |r| == BSIZE
  {
    block[bi / 8 := block[bi / 8] + Mask(bi % 8)]
  }

  function Unmark(block: seq<nat>, bi: nat): (r: seq<nat>)
    requires |block| == BSIZE && bi < BPB && BitOf(block, bi)
    ensures |r| == BSIZE
  {
    BitBelow(block[bi / 8], bi % 8);
    block[bi / 8 := block[bi / 8] - Mask(bi % 8)]
  }

  lemma {:induction false} MarkedBit(block: seq<nat>, bi: nat, bj: nat)
    requires |block| == BSIZE && bi < BPB && bj < BPB && !BitOf(block, bi)
    ensures BitOf(Mark(block, bi), bj) <==> bj == bi || BitOf(block, bj)
  {
    if bj / 8 == bi / 8 {
      BitSet(block[bi / 8], bi % 8, bj % 8);
    }
  }

  lemma {:induction false} UnmarkedBit(block: seq<nat>, bi: nat, bj: nat)
    requires |block| == BSIZE && bi < BPB && bj < BPB && BitOf(block, bi)
    ensures BitOf(Unmark(block, bi), bj) <==> bj != bi && BitOf(block, bj)
  {
    if bj / 8 == bi / 8 {
      BitCleared(block[bi / 8], bi % 8, bj % 8);
    }
  }

  lemma BblockOk(b: nat)
    requires b < SB.size
    ensures Bblock(SB, b) < SB.nmeta <= SB.size
  {
  }

  /** The bitmap says block `b` is in use. */
  predicate InUse(blocks: Blocks, b: nat)
    requires Shaped(blocks) && b < SB.size
  {
    BblockOk(b);
    BitOf(blocks[Bblock(SB, b)], b % BPB)
  }

  lemma SameBit(b: nat, c: nat)
    requires Bblock(SB, b) == Bblock(SB, c) && b % BPB == c % BPB
    ensures b == c
  {
  }

  ghost function Marked(blocks: Blocks, b: nat): (r: Blocks)
    requires Shaped(blocks) && b < SB.size
    ensures Shaped(r)
  {
    BblockOk(b);
    blocks[Bblock(SB, b) := Mark(blocks[Bblock(SB, b)], b % BPB)]
  }

  ghost function Unmarked(blocks: Blocks, b: nat): (r: Blocks)
    requires Shaped(blocks) && b < SB.size && InUse(blocks, b)
    ensures Shaped(r)
  {
    BblockOk(b);
    blocks[Bblock(SB, b) := Unmark(blocks[Bblock(SB, b)], b % BPB)]
  }

  lemma {:induction false} MarkedUse(blocks: Blocks, b: nat, c: nat)
    requires Shaped(blocks) && b < SB.size && c < SB.size && !InUse(blocks, b)
    ensures InUse(Marked(blocks, b), c) <==> c == b || InUse(blocks, c)
  {
    BblockOk(b);
    BblockOk(c);
    if Bblock(SB, b) == Bblock(SB, c) {
      MarkedBit(blocks[Bblock(SB, b)], b % BPB, c % BPB);
      if b % BPB == c % BPB {
        SameBit(b, c);
      }
    }
  }

  lemma {:induction false} UnmarkedUse(blocks: Blocks, b: nat, c: nat)
    requires Shaped(blocks) && b < SB.size && c < SB.size && InUse(blocks, b)
    ensures InUse(Unmarked(blocks, b), c) <==> c != b && InUse(blocks, c)
  {
    BblockOk(b);
    BblockOk(c);
    if Bblock(SB, b) == Bblock(SB, c) {
      UnmarkedBit(blocks[Bblock(SB, b)], b % BPB, c % BPB);
      if b % BPB == c % BPB {
        SameBit(b, c);
      }
    }
  }

  // ---------------------------------------------------------------- inodes and owners

  /** The fields of an inode that concern its content. */
  datatype Inode = Inode(size: nat, addrs: seq<nat>)

  /** What an inode represents: its indirect block (0 if none), and the disk block behind
      each allocated block of the file. */
  datatype Node = Node(ind: nat, slots: map<nat, nat>)

  /** The slot an allocated block is recorded in; `Loose` while it is in none. */
  datatype Owner = Loose | Data(i: nat, bn: nat) | Ind(i: nat)

  datatype Image = Image(blocks: Blocks, inodes: seq<Inode>, nodes: seq<Node>, owner: map<nat, Owner>)

  predicate Owned(owner: map<nat, Owner>, b: nat, x: Owner) {
    b in owner && owner[b] == x
  }

  function Get(slots: map<nat, nat>, bn: nat): nat { if bn in slots then slots[bn] else 0 }

  /** The indirect block's words are the slots from NDIRECT on. */
  ghost predicate IndirectIs(block: seq<nat>, slots: map<nat, nat>) {
    |block| == BSIZE && forall j :: 0 <= j < NINDIRECT ==> Word(block, j) == Get(slots, NDIRECT + j)
  }

  ghost predicate DirectIs(addrs: seq<nat>, slots: map<nat, nat>) {
    |addrs| == NDIRECT + 1 && forall k :: 0 <= k < NDIRECT ==> addrs[k] == Get(slots, k)
  }

  /** Slots lie within the maximal file and their blocks are owned by them alone. */
  ghost predicate SlotsOk(owner: map<nat, Owner>, nd: Node, i: nat) {
    && (forall bn :: bn in nd.slots ==> bn < MAXFILE && nd.slots[bn] != 0 && Owned(owner, nd.slots[bn], Data(i, bn)))
    && (nd.ind == 0 ==> forall bn :: bn in nd.slots ==> bn < NDIRECT)
  }

  /** Every block below the size is allocated. */
  ghost predicate SizeOk(size: nat, nd: Node) {
    size <= MAXBYTES && forall bn: nat :: bn !in nd.slots ==> size <= bn * BSIZE
  }

  ghost predicate NodeOk(blocks: Blocks, owner: map<nat, Owner>, ip: Inode, nd: Node, i: nat) {
    && DirectIs(ip.addrs, nd.slots) && SlotsOk(owner, nd, i) && SizeOk(ip.size, nd)
    && ip.addrs[NDIRECT] == nd.ind
    && (nd.ind != 0 ==> Owned(owner, nd.ind, Ind(i)) && nd.ind < |blocks| && IndirectIs(blocks[nd.ind], nd.slots))
  }

  /** The owner of a block is borne out by the inode it names. */
  ghost predicate OwnerOk(nodes: seq<Node>, b: nat, x: Owner) {
    match x
    case Loose => true
    case Data(i, bn) => i < |nodes| && bn in nodes[i].slots && nodes[i].slots[bn] == b
    case Ind(i) => i < |nodes| && nodes[i].ind == b
  }

  ghost predicate UseOk(img: Image, b: nat)
    requires Shaped(img.blocks) && b < SB.size
  {
    InUse(img.blocks, b) <==> b < SB.nmeta || b in img.owner
  }

  ghost predicate WfBody(img: Image) {
    && Shaped(img.blocks) && |img.inodes| == NINODES && |img.nodes| == NINODES
    && (forall b :: 0 <= b < SB.size ==> UseOk(img, b))
    && (forall b :: b in img.owner ==> SB.nmeta <= b < SB.size && OwnerOk(img.nodes, b, img.owner[b]))
    && (forall i :: 0 <= i < NINODES ==> NodeOk(img.blocks, img.owner, img.inodes[i], img.nodes[i], i))
  }

  /** An arbitrary depth at which larger predicates are kept folded. */
  const DEPTH: nat

  ghost predicate WfAt(img: Image, depth: nat) {
    if depth == 0 then WfBody(img) else WfAt(img, depth - 1)
  }

  lemma {:induction false} UnfoldAt(img: Image, depth: nat)
    ensures WfAt(img, depth) <==> WfBody(img)
  {
    if depth > 0 {
      UnfoldAt(img, depth - 1);
    }
  }

  lemma Unfold(img: Image)
    ensures WfAt(img, DEPTH) <==> WfBody(img)
  {
    UnfoldAt(img, DEPTH);
  }

  // ---------------------------------------------------------------- taking and releasing blocks

  /** balloc: block `b` is marked, zeroed, and not yet in any slot. */
  ghost function Taken(img: Image, b: nat): Image
    requires Shaped(img.blocks) && b < SB.size
  {
    img.(blocks := Marked(img.blocks, b)[b := ZeroBlock()], owner := img.owner[b := Loose])
  }

  /** bfree. */
  ghost function Released(img: Image, b: nat): Image
    requires Shaped(img.blocks) && b < SB.size && InUse(img.blocks, b)
  {
    img.(blocks := Unmarked(img.blocks, b), owner := img.owner - {b})
  }

  /** A node's own blocks are the same. */
  lemma {:induction false} NodeFrame(
    blocks: Blocks, blocks': Blocks, owner: map<nat, Owner>, owner': map<nat, Owner>, ip: Inode, nd: Node, i: nat)
    requires NodeOk(blocks, owner, ip, nd, i) && |blocks'| == |blocks|
    requires forall b :: b in owner && owner[b] != Loose ==> b in owner' && owner'[b] == owner[b]
    requires nd.ind != 0 ==> blocks'[nd.ind] == blocks[nd.ind]
    ensures NodeOk(blocks', owner', ip, nd, i)
  {
  }

  lemma {:induction false} TakenBits(img: Image, b: nat)
    requires WfBody(img) && SB.nmeta <= b < SB.size && !InUse(img.blocks, b)
    ensures Shaped(Taken(img, b).blocks) && forall c :: 0 <= c < SB.size ==> UseOk(Taken(img, b), c)
  {
    var img' := Taken(img, b);
    forall c | 0 <= c < SB.size ensures UseOk(img', c) {
      BblockOk(c);
      MarkedUse(img.blocks, b, c);
      assert UseOk(img, c);
    }
  }

  lemma {:induction false} TakenWf(img: Image, b: nat)
    requires WfBody(img) && SB.nmeta <= b < SB.size && !InUse(img.blocks, b)
    ensures WfBody(Taken(img, b)) && b !in img.owner
  {
    var img' := Taken(img, b);
    assert UseOk(img, b);
    TakenBits(img, b);
    BblockOk(b);
    forall i | 0 <= i < NINODES ensures NodeOk(img'.blocks, img'.owner, img'.inodes[i], img'.nodes[i], i) {
      NodeFrame(img.blocks, img'.blocks, img.owner, img'.owner, img.inodes[i], img.nodes[i], i);
    }
  }

  lemma {:induction false} ReleasedBits(img: Image, b: nat)
    requires WfBody(img) && b in img.owner
    ensures b < SB.size && InUse(img.blocks, b)
    ensures forall c :: 0 <= c < SB.size ==> UseOk(Released(img, b), c)
  {
    assert UseOk(img, b);
    var img' := Released(img, b);
    forall c | 0 <= c < SB.size ensures UseOk(img', c) {
      UnmarkedUse(img.blocks, b, c);
      assert UseOk(img, c);
    }
  }

  lemma {:induction false} ReleasedWf(img: Image, b: nat)
    requires WfBody(img) && Owned(img.owner, b, Loose)
    ensures b < SB.size && InUse(img.blocks, b) && WfBody(Released(img, b))
  {
    ReleasedBits(img, b);
    var img' := Released(img, b);
    BblockOk(b);
    forall i | 0 <= i < NINODES ensures NodeOk(img'.blocks, img'.owner, img'.inodes[i], img'.nodes[i], i) {
      NodeFrame(img.blocks, img'.blocks, img.owner, img'.owner, img.inodes[i], img.nodes[i], i);
    }
  }

  // ---------------------------------------------------------------- steps on one inode

  predicate Mine(x: Owner, i: nat) { x.Loose? || x.i == i }

  /** Only inode `i`, the contents of blocks it owns, and the slot of block `b` change. */
  ghost predicate Touches(img: Image, img': Image, i: nat, b: nat) {
    && |img'.inodes| == |img.inodes| && |img'.nodes| == |img.nodes|
    && (forall k :: 0 <= k < |img.inodes| && k != i ==> img'.inodes[k] == img.inodes[k])
    && (forall k :: 0 <= k < |img.nodes| && k != i ==> img'.nodes[k] == img.nodes[k])
    && b in img.owner && Mine(img.owner[b], i) && b in img'.owner && Mine(img'.owner[b], i)
    && img'.owner == img.owner[b := img'.owner[b]]
    && |img'.blocks| == |img.blocks|
    && (forall c :: 0 <= c < |img.blocks| && img'.blocks[c] != img.blocks[c] ==>
          c in img.owner && Mine(img.owner[c], i) && |img'.blocks[c]| == BSIZE)
  }

  lemma {:induction false} TouchedUse(img: Image, img': Image, i: nat, b: nat)
    requires WfBody(img) && Touches(img, img', i, b)
    ensures Shaped(img'.blocks) && forall c :: 0 <= c < SB.size ==> UseOk(img', c)
  {
    forall c | 0 <= c < SB.size ensures UseOk(img', c) {
      BblockOk(c);
      assert UseOk(img, c);
      assert img'.blocks[Bblock(SB, c)] == img.blocks[Bblock(SB, c)];
    }
  }

  /** Other inodes do not notice. */
  lemma {:induction false} OtherNode(img: Image, img': Image, i: nat, b: nat, k: nat)
    requires WfBody(img) && Touches(img, img', i, b) && k < NINODES && k != i
    ensures NodeOk(img'.blocks, img'.owner, img'.inodes[k], img'.nodes[k], k)
  {
    assert NodeOk(img.blocks, img.owner, img.inodes[k], img.nodes[k], k);
  }

  lemma {:induction false} NodeStep(img: Image, img': Image, i: nat, b: nat)
    requires WfBody(img) && Touches(img, img', i, b) && i < NINODES
    requires NodeOk(img'.blocks, img'.owner, img'.inodes[i], img'.nodes[i], i)
    requires forall c :: c in img'.owner && !img'.owner[c].Loose? && img'.owner[c].i == i ==>
               OwnerOk(img'.nodes, c, img'.owner[c])
    ensures WfBody(img')
  {
    TouchedUse(img, img', i, b);
    forall k | 0 <= k < NINODES ensures NodeOk(img'.blocks, img'.owner, img'.inodes[k], img'.nodes[k], k) {
      if k != i {
        OtherNode(img, img', i, b, k);
      }
    }
    forall c | c in img'.owner ensures SB.nmeta <= c < SB.size && OwnerOk(img'.nodes, c, img'.owner[c]) {
      assert OwnerOk(img.nodes, c, img.owner[c]);
    }
  }

  /** Block `b` is recorded in direct slot `bn`. */
  ghost function Attached(img: Image, i: nat, bn: nat, b: nat): Image
    requires i < |img.inodes| && i < |img.nodes| && bn < |img.inodes[i].addrs|
  {
    img.(inodes := img.inodes[i := img.inodes[i].(addrs := img.inodes[i].addrs[bn := b])],
         nodes := img.nodes[i := img.nodes[i].(slots := img.nodes[i].slots[bn := b])],
         owner := img.owner[b := Data(i, bn)])
  }

  lemma {:induction false} AttachedWf(img: Image, i: nat, bn: nat, b: nat)
    requires WfBody(img) && i < NINODES && bn < NDIRECT && Owned(img.owner, b, Loose)
    requires |img.inodes[i].addrs| == NDIRECT + 1 && img.inodes[i].addrs[bn] == 0
    ensures WfBody(Attached(img, i, bn, b)) && bn !in img.nodes[i].slots
  {
    var img' := Attached(img, i, bn, b);
    var nd := img.nodes[i];
    assert NodeOk(img.blocks, img.owner, img.inodes[i], nd, i);
    assert img.inodes[i].addrs[bn] == Get(nd.slots, bn);
    forall c | c in img'.owner && img'.owner[c] != Loose && img'.owner[c].i == i
      ensures OwnerOk(img'.nodes, c, img'.owner[c])
    {
      assert c != b ==> OwnerOk(img.nodes, c, img.owner[c]);
    }
    if nd.ind != 0 {
      forall j | 0 <= j < NINDIRECT ensures Word(img'.blocks[nd.ind], j) == Get(img'.nodes[i].slots, NDIRECT + j) {
        assert Word(img.blocks[nd.ind], j) == Get(nd.slots, NDIRECT + j);
      }
    }
    NodeStep(img, img', i, b);
  }

  /** Block `b`, which is zero, becomes the indirect block. */
  ghost function AttachedInd(img: Image, i: nat, b: nat): Image
    requires i < |img.inodes| && i < |img.nodes| && NDIRECT < |img.inodes[i].addrs|
  {
    img.(inodes := img.inodes[i := img.inodes[i].(addrs := img.inodes[i].addrs[NDIRECT := b])],
         nodes := img.nodes[i := img.nodes[i].(ind := b)],
         owner := img.owner[b := Ind(i)])
  }

  lemma {:induction false} AttachedIndWf(img: Image, i: nat, b: nat)
    requires WfBody(img) && i < NINODES && Owned(img.owner, b, Loose) && b < SB.size && img.blocks[b] == ZeroBlock()
    requires |img.inodes[i].addrs| == NDIRECT + 1 && img.inodes[i].addrs[NDIRECT] == 0
    ensures WfBody(AttachedInd(img, i, b))
  {
    var img' := AttachedInd(img, i, b);
    assert NodeOk(img.blocks, img.owner, img.inodes[i], img.nodes[i], i);
    forall j | 0 <= j < NINDIRECT ensures Word(img'.blocks[b], j) == Get(img'.nodes[i].slots, NDIRECT + j) {
      WordsZero(j);
    }
    forall c | c in img'.owner && img'.owner[c] != Loose && img'.owner[c].i == i
      ensures OwnerOk(img'.nodes, c, img'.owner[c])
    {
      assert c != b ==> OwnerOk(img.nodes, c, img.owner[c]);
    }
    NodeStep(img, img', i, b);
  }

  /** Word `j` of the indirect block of inode `i` and the matching slot change. */
  ghost function Reword(img: Image, i: nat, j: nat, x: nat, slots: map<nat, nat>, owner: map<nat, Owner>): Image
    requires i < |img.nodes| && img.nodes[i].ind < |img.blocks| && |img.blocks[img.nodes[i].ind]| == BSIZE
             && j < NINDIRECT
  {
    var g := img.nodes[i].ind;
    img.(blocks := img.blocks[g := SetWord(img.blocks[g], j, x)],
         nodes := img.nodes[i := img.nodes[i].(slots := slots)],
         owner := owner)
  }

  lemma {:induction false} IndirectSet(block: seq<nat>, slots: map<nat, nat>, slots': map<nat, nat>, j: nat, x: nat)
    requires IndirectIs(block, slots) && j < NINDIRECT && x < WORD && Get(slots', NDIRECT + j) == x
    requires forall bn :: bn != NDIRECT + j ==> Get(slots', bn) == Get(slots, bn)
    ensures IndirectIs(SetWord(block, j, x), slots')
  {
    forall k | 0 <= k < NINDIRECT ensures Word(SetWord(block, j, x), k) == Get(slots', NDIRECT + k) {
      WordRoundTrip(block, j, x, k);
      assert Word(block, k) == Get(slots, NDIRECT + k);
    }
  }

  /** Block `b` is recorded in entry `j` of the indirect block. */
  ghost function AttachedEntry(img: Image, i: nat, j: nat, b: nat): Image
    requires i < |img.nodes| && img.nodes[i].ind < |img.blocks| && |img.blocks[img.nodes[i].ind]| == BSIZE
             && j < NINDIRECT
  {
    Reword(img, i, j, b, img.nodes[i].slots[NDIRECT + j := b], img.owner[b := Data(i, NDIRECT + j)])
  }

  lemma {:induction false} AttachedEntryWf(img: Image, i: nat, j: nat, b: nat)
    requires WfBody(img) && i < NINODES && img.nodes[i].ind != 0 && j < NINDIRECT && Owned(img.owner, b, Loose)
    requires NDIRECT + j !in img.nodes[i].slots
    ensures img.nodes[i].ind < |img.blocks| && |img.blocks[img.nodes[i].ind]| == BSIZE
    ensures WfBody(AttachedEntry(img, i, j, b))
  {
    var nd := img.nodes[i];
    assert NodeOk(img.blocks, img.owner, img.inodes[i], nd, i);
    var img' := AttachedEntry(img, i, j, b);
    IndirectSet(img.blocks[nd.ind], nd.slots, nd.slots[NDIRECT + j := b], j, b);
    forall c | c in img'.owner && img'.owner[c] != Loose && img'.owner[c].i == i
      ensures OwnerOk(img'.nodes, c, img'.owner[c])
    {
      assert c != b ==> OwnerOk(img.nodes, c, img.owner[c]);
    }
    NodeStep(img, img', i, b);
  }

  /** Direct slot `bn` is emptied. */
  ghost function Detached(img: Image, i: nat, bn: nat): Image
    requires i < |img.inodes| && i < |img.nodes| && bn < |img.inodes[i].addrs| && bn in img.nodes[i].slots
  {
    img.(inodes := img.inodes[i := img.inodes[i].(addrs := img.inodes[i].addrs[bn := 0])],
         nodes := img.nodes[i := img.nodes[i].(slots := img.nodes[i].slots - {bn})],
         owner := img.owner[img.nodes[i].slots[bn] := Loose])
  }

  lemma {:induction false} DetachedWf(img: Image, i: nat, bn: nat)
    requires WfBody(img) && i < NINODES && bn < NDIRECT && bn in img.nodes[i].slots && img.inodes[i].size == 0
    ensures |img.inodes[i].addrs| == NDIRECT + 1 && WfBody(Detached(img, i, bn))
  {
    var nd, b := img.nodes[i], img.nodes[i].slots[bn];
    assert NodeOk(img.blocks, img.owner, img.inodes[i], nd, i);
    var img' := Detached(img, i, bn);
    forall c | c in img'.owner && img'.owner[c] != Loose && img'.owner[c].i == i
      ensures OwnerOk(img'.nodes, c, img'.owner[c])
    {
      assert OwnerOk(img.nodes, c, img.owner[c]);
    }
    if nd.ind != 0 {
      forall j | 0 <= j < NINDIRECT ensures Word(img'.blocks[nd.ind], j) == Get(img'.nodes[i].slots, NDIRECT + j) {
        assert Word(img.blocks[nd.ind], j) == Get(nd.slots, NDIRECT + j);
      }
    }
    NodeStep(img, img', i, b);
  }

  /** Entry `j` of the indirect block is emptied. */
  ghost function DetachedEntry(img: Image, i: nat, j: nat): Image
    requires i < |img.nodes| && img.nodes[i].ind < |img.blocks| && |img.blocks[img.nodes[i].ind]| == BSIZE
             && j < NINDIRECT
    requires NDIRECT + j in img.nodes[i].slots
  {
    Reword(img, i, j, 0, img.nodes[i].slots - {NDIRECT + j}, img.owner[img.nodes[i].slots[NDIRECT + j] := Loose])
  }

  lemma {:induction false} DetachedEntryWf(img: Image, i: nat, j: nat)
    requires WfBody(img) && i < NINODES && img.nodes[i].ind != 0 && j < NINDIRECT && img.inodes[i].size == 0
    requires NDIRECT + j in img.nodes[i].slots
    ensures img.nodes[i].ind < |img.blocks| && |img.blocks[img.nodes[i].ind]| == BSIZE
    ensures WfBody(DetachedEntry(img, i, j))
  {
    var nd, b := img.nodes[i], img.nodes[i].slots[NDIRECT + j];
    assert NodeOk(img.blocks, img.owner, img.inodes[i], nd, i);
    var img' := DetachedEntry(img, i, j);
    IndirectSet(img.blocks[nd.ind], nd.slots, nd.slots - {NDIRECT + j}, j, 0);
    forall c | c in img'.owner && img'.owner[c] != Loose && img'.owner[c].i == i
      ensures OwnerOk(img'.nodes, c, img'.owner[c])
    {
      assert OwnerOk(img.nodes, c, img.owner[c]);
    }
    NodeStep(img, img', i, b);
  }

  /** The indirect block, all of whose entries are empty, is dropped. */
  ghost function DetachedInd(img: Image, i: nat): Image
    requires i < |img.inodes| && i < |img.nodes| && NDIRECT < |img.inodes[i].addrs|
  {
    img.(inodes := img.inodes[i := img.inodes[i].(addrs := img.inodes[i].addrs[NDIRECT := 0])],
         nodes := img.nodes[i := img.nodes[i].(ind := 0)],
         owner := img.owner[img.nodes[i].ind := Loose])
  }

  lemma {:induction false} DetachedIndWf(img: Image, i: nat)
    requires WfBody(img) && i < NINODES && img.nodes[i].ind != 0
    requires forall bn :: bn in img.nodes[i].slots ==> bn < NDIRECT
    ensures |img.inodes[i].addrs| == NDIRECT + 1 && WfBody(DetachedInd(img, i))
  {
    assert NodeOk(img.blocks, img.owner, img.inodes[i], img.nodes[i], i);
    var img' := DetachedInd(img, i);
    forall c | c in img'.owner && img'.owner[c] != Loose && img'.owner[c].i == i
      ensures OwnerOk(img'.nodes, c, img'.owner[c])
    {
      assert OwnerOk(img.nodes, c, img.owner[c]);
    }
    NodeStep(img, img', i, img.nodes[i].ind);
  }

  /** A data block gets new contents. */
  lemma {:induction false} StoredWf(img: Image, i: nat, bn: nat, page: seq<nat>)
    requires WfBody(img) && i < NINODES && bn in img.nodes[i].slots && |page| == BSIZE
    ensures img.nodes[i].slots[bn] < |img.blocks| && WfBody(img.(blocks := img.blocks[img.nodes[i].slots[bn] := page]))
  {
    var b := img.nodes[i].slots[bn];
    assert NodeOk(img.blocks, img.owner, img.inodes[i], img.nodes[i], i);
    var img' := img.(blocks := img.blocks[b := page]);
    assert img'.owner == img.owner[b := img.owner[b]];
    NodeStep(img, img', i, b);
  }

  /** An inode gets a new size, below which all blocks are allocated. */
  lemma {:induction false} SizedWf(img: Image, i: nat, size: nat)
    requires WfBody(img) && i < NINODES && SizeOk(size, img.nodes[i])
    ensures WfBody(img.(inodes := img.inodes[i := img.inodes[i].(size := size)]))
  {
    var img' := img.(inodes := img.inodes[i := img.inodes[i].(size := size)]);
    forall b | 0 <= b < SB.size ensures UseOk(img', b) {
      assert UseOk(img, b);
    }
    forall k | 0 <= k < NINODES ensures NodeOk(img'.blocks, img'.owner, img'.inodes[k], img'.nodes[k], k) {
      assert NodeOk(img.blocks, img.owner, img.inodes[k], img.nodes[k], k);
    }
  }

  // ---------------------------------------------------------------- contents

  /** The byte at offset `o` of file `i`; 0 where no block is allocated. */
  ghost function Byte(img: Image, i: nat, o: nat): nat {
    if i < |img.nodes| && o / BSIZE in img.nodes[i].slots then
      var b := img.nodes[i].slots[o / BSIZE];
      if b < |img.blocks| && |img.blocks[b]| == BSIZE then img.blocks[b][o % BSIZE] else 0
    else 0
  }

  /** The file as a byte sequence. */
  ghost function Content(img: Image, i: nat): (c: seq<nat>)
    requires i < |img.inodes|
    ensures |c| == img.inodes[i].size && forall o :: 0 <= o < |c| ==> c[o] == Byte(img, i, o)
  {
    seq(img.inodes[i].size, o requires 0 <= o => Byte(img, i, o))
  }
}
