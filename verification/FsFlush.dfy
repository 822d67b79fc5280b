/** file_flush (fs/fs.c): the file layer driving the block cache. */
module FsFlush {
  import opened Common
  import BlockCache
  import opened FsLayout
  import opened FsBlocks
  import opened FileSystem

  /** Block b is on the disk as the server sees it. */
  ghost predicate OnDisk(c: BlockCache.State, b: nat) {
    b < |c.disk| && c.disk[b] == BlockCache.View(c, b)
  }

  lemma FlushOnDisk(c: BlockCache.State, b: nat, d: nat)
    requires BlockCache.Inv(c)
    ensures OnDisk(c, d) ==> OnDisk(BlockCache.Flushed(c, b), d)
    ensures b < |c.disk| ==> OnDisk(BlockCache.Flushed(c, b), b)
  {
  }

  lemma FlushKeepsOnDisk(c: BlockCache.State, b: nat)
    requires BlockCache.Inv(c)
    ensures forall d :: OnDisk(c, d) ==> OnDisk(BlockCache.Flushed(c, b), d)
  {
  }

  lemma SameViewTrans(c: BlockCache.State, d: BlockCache.State, e: BlockCache.State)
    requires BlockCache.SameView(c, d) && BlockCache.SameView(d, e)
    ensures BlockCache.SameView(c, e)
  {
  }

  /** flush_block(diskaddr(b)), which panics for no block of a file. */
  method FlushOne(c: BlockCache.Cache, b: nat)
    requires c.Valid() && 0 < b < c.nblocks
    modifies c`disk, c`dirty
    ensures c.Valid() && c.Now() == BlockCache.Flushed(old(c.Now()), b) && OnDisk(c.Now(), b)
    ensures BlockCache.SameView(old(c.Now()), c.Now())
    ensures forall d :: OnDisk(old(c.Now()), d) ==> OnDisk(c.Now(), d)
  {
    hide OnDisk, BlockCache.Inv, BlockCache.SameView, BlockCache.Flushed;
    FlushOnDisk(c.Now(), b, b);
    FlushKeepsOnDisk(c.Now(), b);
    BlockCache.DiskaddrRoundTrip(c.nblocks, b, 0);
    var addr := BlockCache.Diskaddr(c.nblocks, b).value;
    var ok := c.FlushBlock(addr);
  }

  /** The disk holds block b of the volume. */
  ghost predicate Saved(c: BlockCache.State, mem: seq<Block>, b: nat) {
    b < |c.disk| && b < |mem| && c.disk[b] == mem[b]
  }

  lemma OnDiskSaved(c: BlockCache.State, mem: seq<Block>, b: nat)
    requires BlockCache.Sees(c, mem) && OnDisk(c, b)
    ensures Saved(c, mem, b)
  {
  }

  lemma ViewSees(c: BlockCache.State, d: BlockCache.State, mem: seq<Block>)
    requires BlockCache.Sees(c, mem) && BlockCache.SameView(c, d)
    ensures BlockCache.Sees(d, mem)
  {
  }

  /** The volume's bytes of every data block, of the inode's own block and of the indirect block reach the disk. */
  method FileFlush(v: Volume, c: BlockCache.Cache, f: nat, home: nat)
    requires v.Valid() && c.Valid() && c.nblocks == v.n && f in v.files && 0 < home < v.n
    requires BlockCache.Sees(c.Now(), v.mem)
    modifies v`bitmap, v`files, c`disk, c`dirty
    ensures v.Now() == old(v.Now()) && v.bitmap == old(v.bitmap)
    ensures c.Valid() && BlockCache.Sees(c.Now(), v.mem)
    ensures Saved(c.Now(), v.mem, home)
    ensures v.files[f].indirect != 0 ==> Saved(c.Now(), v.mem, v.files[f].indirect)
    ensures forall i :: 0 <= i < MAXBLOCKS && SlotVal(v.mem, v.files[f], i) != 0 ==>
      Saved(c.Now(), v.mem, SlotVal(v.mem, v.files[f], i))
  {
    hide OnDisk, BlockCache.Inv, BlockCache.SameView, BlockCache.Sees, SlotVal, Inv, Saved;
    ghost var ind, mem, c0 := v.files[f].indirect, v.mem, c.Now();
    FlushAll(v, c, f, home);
    ViewSees(c0, c.Now(), mem);
    OnDiskSaved(c.Now(), mem, home);
    if ind != 0 {
      OnDiskSaved(c.Now(), mem, ind);
    }
    forall i | 0 <= i < MAXBLOCKS && SlotVal(v.mem, v.files[f], i) != 0
      ensures Saved(c.Now(), v.mem, SlotVal(v.mem, v.files[f], i))
    {
      OnDiskSaved(c.Now(), mem, SlotVal(v.mem, v.files[f], i));
    }
  }

  /** The calls of flush_block that file_flush makes; none panics and the view stays. */
  method FlushAll(v: Volume, c: BlockCache.Cache, f: nat, home: nat)
    requires v.Valid() && c.Valid() && c.nblocks == v.n && f in v.files && 0 < home < v.n
    modifies v`bitmap, v`files, c`disk, c`dirty
    ensures v.Now() == old(v.Now()) && v.bitmap == old(v.bitmap)
    ensures c.Valid() && BlockCache.SameView(old(c.Now()), c.Now())
    ensures OnDisk(c.Now(), home) && (v.files[f].indirect != 0 ==> OnDisk(c.Now(), v.files[f].indirect))
    ensures forall i :: 0 <= i < MAXBLOCKS && SlotVal(v.mem, v.files[f], i) != 0 ==>
      OnDisk(c.Now(), SlotVal(v.mem, v.files[f], i))
  {
    hide OnDisk, BlockCache.Inv, BlockCache.SameView, SlotVal, Inv, BlockCache.Flushed, NBlocks;
    ghost var s := v.Now();
    assert BlockCache.SameView(c.Now(), c.Now()) by {
      ViewSame(c.Now());
    }
    TailIsEmpty(s, f, 0);
    IndirectInRange(s, f);
    var i := 0;
    while i < NBlocks(v.files[f].size)
      invariant v.Valid() && v.Now() == s && v.bitmap == old(v.bitmap)
      invariant c.Valid() && BlockCache.SameView(old(c.Now()), c.Now())
      invariant forall j :: 0 <= j < i && j < MAXBLOCKS && SlotVal(s.mem, s.files[f], j) != 0 ==>
        OnDisk(c.Now(), SlotVal(s.mem, s.files[f], j))
    {
      var w := v.FileBlockWalk(f, i, false);
      if w.At? {
        DerefIsSlot(s, f, i);
        var b := v.Deref(f, w.ptr);
        if b != 0 {
          SlotInRange(s, f, i);
          ghost var c1 := c.Now();
          FlushOne(c, b);
          SameViewTrans(old(c.Now()), c1, c.Now());
        }
      } else {
        NoSlot(s, f, i);
      }
      i := i + 1;
    }
    ghost var c2 := c.Now();
    FlushRest(c, home, v.files[f].indirect);
    SameViewTrans(old(c.Now()), c2, c.Now());
  }

  lemma ViewSame(c: BlockCache.State)
    ensures BlockCache.SameView(c, c)
  {
  }

  lemma NoSlot(s: Fs, f: nat, i: nat)
    requires f in s.files && (i >= MAXBLOCKS || NeedsIndirect(s, f, i))
    ensures i < MAXBLOCKS ==> SlotVal(s.mem, s.files[f], i) == 0
  {
  }

  method FlushRest(c: BlockCache.Cache, home: nat, ind: nat)
    requires c.Valid() && 0 < home < c.nblocks && ind < c.nblocks
    modifies c`disk, c`dirty
    ensures c.Valid() && OnDisk(c.Now(), home) && (ind != 0 ==> OnDisk(c.Now(), ind))
    ensures BlockCache.SameView(old(c.Now()), c.Now())
    ensures forall d :: OnDisk(old(c.Now()), d) ==> OnDisk(c.Now(), d)
  {
    hide OnDisk, BlockCache.Inv, BlockCache.SameView, BlockCache.Flushed;
    FlushOne(c, home);
    if ind != 0 {
      ghost var c1 := c.Now();
      FlushOne(c, ind);
      SameViewTrans(old(c.Now()), c1, c.Now());
    }
  }
}
