/** Kernel constants (kernel/param.h, kernel/fs.h).

    They are left symbolic, constrained only by what the source relies on, so that no
    proof can depend on a particular table size. */
module Params {

  type Pos = n: nat | 0 < n witness 1

  /** Most blocks any one file-system operation may log (10 in the source). */
  const MAXOPBLOCKS: Pos

  /** Data blocks in the on-disk log. */
  const LOGBLOCKS: Pos := 3 * MAXOPBLOCKS

  /** 32-bit words in a disk block (256 in the source). `initlog` panics unless the log
      header, one count and LOGBLOCKS block numbers, is smaller than a block. */
  type HeaderFits = w: nat | LOGBLOCKS + 1 < w witness LOGBLOCKS + 2
  const WORDS: HeaderFits

  /** Slots in the process table (64 in the source). */
  const NPROC: Pos
}
