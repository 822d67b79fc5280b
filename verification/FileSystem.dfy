/**
 The file server's block and file operations (fs/fs.c) on the blocks as its cache
 shows them.  Inodes and bitmap words are kept in fields of their own.
 */
module FileSystem {
  import opened Wrappers
  import opened Common
  import opened FsLayout
  import opened FsBitmap
  import opened FsBlocks
  import opened FsBytes
  import opened FsWrite
  import opened FsRead

  const E_NO_DISK: nat := 9
  const DISKBLOCKS: nat := 0xC0000

  /** Where a block number is kept: a uint32_t pointer of the source. */
  datatype Ptr = DirectPtr(i: nat) | EntryPtr(b: nat, j: nat)

  datatype Walk = At(ptr: Ptr) | WalkInval | WalkNotFound | WalkPanic

  function PtrTo(x: File, i: nat): Ptr {
    if i < NDIRECT then DirectPtr(i) else EntryPtr(x.indirect, i - NDIRECT)
  }

  predicate PtrOk(n: nat, p: Ptr) {
    match p
    case DirectPtr(i) => i < NDIRECT
    case EntryPtr(b, j) => 0 < b < n && j < NINDIRECT
  }

  class Volume {
    const n: nat
    const first: nat
    var bitmap: seq<bv32>
    var mem: seq<Block>
    var files: map<nat, File>

    ghost function Now(): Fs
      reads this
    {
      Fs(n, first, FreeSet(bitmap, n), mem, files)
    }

    ghost predicate Sound()
      reads this
    {
      n <= DISKBLOCKS && n <= 32 * |bitmap| && Shaped(Now())
    }

    /** Block conservation holds. */
    ghost predicate Valid()
      reads this
    {
      Sound() && Inv(Now())
    }

    /** A volume as fs_init finds it. */
    constructor (blocks: seq<Block>, reserved: nat, words: seq<bv32>, inodes: map<nat, File>)
      requires |blocks| <= DISKBLOCKS && |blocks| <= 32 * |words|
      requires Inv(Fs(|blocks|, reserved, FreeSet(words, |blocks|), blocks, inodes))
      ensures Valid() && n == |blocks| && first == reserved && bitmap == words && mem == blocks && files == inodes
    {
      n, first, bitmap, mem, files := |blocks|, reserved, words, blocks, inodes;
    }

    predicate BlockIsFree(b: nat)
      requires n <= 32 * |bitmap|
      ensures BlockIsFree(b) <==> b in FreeSet(bitmap, n)
      reads this
    {
      b < n && Bit(bitmap[b / 32], b % 32)
    }

    /** False where the source panics. */
    method FreeBlock(b: nat) returns (ok: bool)
      requires b < n <= 32 * |bitmap|
      modifies this`bitmap
      ensures ok <==> b != 0
      ensures |bitmap| == |old(bitmap)|
      ensures FreeSet(bitmap, n) == if ok then old(FreeSet(bitmap, n)) + {b} else old(FreeSet(bitmap, n))
    {
      if b == 0 {
        return false;
      }
      MarkedSet(bitmap, n, b);
      bitmap := bitmap[b / 32 := SetBit(bitmap[b / 32], b % 32)];
      ok := true;
    }

    /** The lowest free block: skipping whole zero words never skips a free block. */
    method AllocBlock() returns (r: Option<nat>)
      requires n <= 32 * |bitmap|
      modifies this`bitmap
      ensures r == LowestFrom(old(FreeSet(bitmap, n)), 0, n) && |bitmap| == |old(bitmap)|
      ensures r.Some? ==> FreeSet(bitmap, n) == old(FreeSet(bitmap, n)) - {r.value}
      ensures r.None? ==> bitmap == old(bitmap)
    {
      hide FreeSet, Bit, LowestFrom;
      ghost var free := FreeSet(bitmap, n);
      var b := 0;
      while b < n
        invariant bitmap == old(bitmap)
        invariant LowestFrom(free, 0, n) == LowestFrom(free, b, n)
        invariant b < n && b % 32 != 0 ==> bitmap[b / 32] != 0
      {
        if bitmap[b / 32] == 0 {
          ZeroWordSkips(bitmap, n, b);
          LowestSkips(free, b, b + 32, n);
          b := b + 32;
        } else if Bit(bitmap[b / 32], b % 32) {
          LowestHere(bitmap, n, b);
          MarkedSet(bitmap, n, b);
          bitmap := bitmap[b / 32 := ClearBit(bitmap[b / 32], b % 32)];
          return Some(b);
        } else {
          NotFreeHere(bitmap, n, b);
          LowestSkips(free, b, b + 1, n);
          b := b + 1;
        }
      }
      LowestPast(free, b, n);
      return None;
    }

    function Deref(f: nat, p: Ptr): nat
      requires Sound() && f in files && PtrOk(n, p)
      reads this
    {
      match p
      case DirectPtr(i) => files[f].direct[i]
      case EntryPtr(b, j) => Word(mem[b], j)
    }

    method Assign(f: nat, p: Ptr, v: nat)
      requires Sound() && f in files && PtrOk(n, p)
      modifies this`files, this`mem
      ensures files == if p.DirectPtr? then old(files)[f := SlotFile(old(files)[f], p.i, v)] else old(files)
      ensures mem == if p.EntryPtr? then old(mem)[p.b := SetWord(old(mem)[p.b], p.j, v)] else old(mem)
    {
      match p
      case DirectPtr(i) => files := files[f := files[f].(direct := files[f].direct[i := v])];
      case EntryPtr(b, j) => mem := mem[b := SetWord(mem[b], j, v)];
    }

    /** file_block_walk; its `ret` is unsigned, so a full disk ends in diskaddr's panic. */
    method FileBlockWalk(f: nat, i: nat, alloc: bool) returns (r: Walk)
      requires Sound() && f in files
      modifies this`bitmap, this`files
      ensures r.WalkInval? <==> i >= MAXBLOCKS
      ensures r.WalkNotFound? <==> i < MAXBLOCKS && !alloc && NeedsIndirect(old(Now()), f, i)
      ensures r.WalkPanic? <==>
        && NDIRECT <= i < MAXBLOCKS
        && (if old(files)[f].indirect != 0 then old(files)[f].indirect >= n
            else alloc && (old(FreeSet(bitmap, n)) == {} || 0 in old(FreeSet(bitmap, n))))
      ensures r.WalkPanic? && Inv(old(Now())) ==> alloc && FreeSet(bitmap, n) == {}
      ensures r.WalkInval? || !alloc ==> Now() == old(Now()) && bitmap == old(bitmap)
      ensures r.At? && alloc ==> Walked(old(Now()), f, i) == Some(Now())
      ensures r.At? ==> f in files && r.ptr == PtrTo(files[f], i) && PtrOk(n, r.ptr) && Sound()
    {
      hide Inv, FreeSet, LowestFrom;
      if i >= MAXBLOCKS {
        return WalkInval;
      }
      if i < NDIRECT {
        return At(DirectPtr(i));
      }
      WalkFacts(Now(), f);
      if files[f].indirect != 0 {
        return if files[f].indirect >= n then WalkPanic else At(EntryPtr(files[f].indirect, i - NDIRECT));
      }
      if !alloc {
        return WalkNotFound;
      }
      LowestOrNone(bitmap, n);
      var a := AllocBlock();
      var ret := if a.Some? then a.value else WORDS - E_NO_DISK;
      files := files[f := files[f].(indirect := ret)];
      if ret == 0 || ret >= n {
        return WalkPanic;
      }
      return At(EntryPtr(ret, i - NDIRECT));
    }

    /** file_get_block: exactly the value-level GetBlock, except that a panic leaves the state unspecified. */
    method FileGetBlock(f: nat, i: nat) returns (r: Got)
      requires Sound() && f in files
      modifies this`bitmap, this`files, this`mem
      ensures r == GetBlock(old(Now()), f, i).1
      ensures !r.Panic? ==> Sound() && Now() == GetBlock(old(Now()), f, i).0
      ensures r.Panic? && Inv(old(Now())) && CleanWalk(old(Now()), f, i) ==> FreeSet(bitmap, n) == {}
    {
      hide Inv, FreeSet, LowestFrom, SlotVal, CleanWalk;
      if i >= MAXBLOCKS {
        return Inval;
      }
      ghost var s := Now();
      var w := FileBlockWalk(f, i, true);
      if w.WalkPanic? {
        return Panic;
      }
      ghost var t := Now();
      DerefIsSlot(t, f, i);
      SlotFacts(s, f, i);
      var v := Deref(f, w.ptr);
      if v != 0 {
        return if v >= n then Panic else Got(v);
      }
      LowestOrNone(bitmap, n);
      var a := AllocBlock();
      var ret := if a.Some? then a.value else WORDS - E_NO_DISK;
      AssignIsSlot(t, f, i, ret);
      Assign(f, w.ptr, ret);
      if ret == 0 || ret >= n {
        return Panic;
      }
      return Got(ret);
    }

    /** file_free_block; false where it returns an error, which is when there is no such slot. */
    method FileFreeBlock(f: nat, i: nat) returns (ok: bool)
      requires Valid() && f in files
      modifies this`bitmap, this`files, this`mem
      ensures Valid() && f in files && Now() == FreeSlot(old(Now()), f, i)
      ensures ok <==> i < MAXBLOCKS && !NeedsIndirect(old(Now()), f, i)
    {
      hide FreeSet, LowestFrom, SlotVal, Inv;
      ghost var s := Now();
      FreeSlotSound(s, f, i);
      var w := FileBlockWalk(f, i, false);
      if !w.At? {
        return false;
      }
      DerefIsSlot(s, f, i);
      var v := Deref(f, w.ptr);
      if v != 0 {
        SlotInRange(s, f, i);
        AssignIsSlot(s, f, i, 0);
        var freed := FreeBlock(v);
        Assign(f, w.ptr, 0);
      }
      ok := true;
    }

    /** file_truncate_blocks: see TruncateExact for which blocks this frees. */
    method FileTruncateBlocks(f: nat, newsize: nat)
      requires Valid() && f in files && newsize <= files[f].size
      modifies this`bitmap, this`files, this`mem
      ensures Valid() && Now() == Truncated(old(Now()), f, newsize)
      ensures f in files && files[f].size == old(files)[f].size
      ensures Now().free == old(Now()).free + Surplus(old(Now()), f, newsize)
      ensures CutAt(old(Now()), Now(), f, NBlocks(newsize))
    {
      hide FreeSet, Inv, Truncated, Surplus, CutAt, NBlocks, FreeSlot;
      ghost var s := Now();
      TruncateExact(s, f, newsize);
      TruncatedIs(s, f, newsize);
      TruncatedSound(s, f, newsize);
      var old_nblocks, new_nblocks := NBlocks(files[f].size), NBlocks(newsize);
      var bno := new_nblocks;
      while bno < old_nblocks
        invariant Valid() && f in files
        invariant FreeSlots(Now(), f, bno, old_nblocks) == FreeSlots(s, f, new_nblocks, old_nblocks)
      {
        var ok := FileFreeBlock(f, bno);
        bno := bno + 1;
      }
      if new_nblocks <= NDIRECT && files[f].indirect != 0 {
        IndirectInRange(Now(), f);
        var freed := FreeBlock(files[f].indirect);
        files := files[f := files[f].(indirect := 0)];
      }
    }

    method FileSetSize(f: nat, newsize: nat)
      requires Sound() && f in files && (newsize < files[f].size ==> Inv(Now()))
      modifies this`bitmap, this`files, this`mem
      ensures Sound() && f in files && Now() == Resized(old(Now()), f, newsize)
      ensures Inv(old(Now())) ==> Inv(Now()) && files[f].size == newsize
      ensures newsize < old(files[f].size) ==>
        CutAt(old(Now()), Now(), f, NBlocks(newsize)) && Now().free == old(Now()).free + Surplus(old(Now()), f, newsize)
      ensures newsize >= old(files[f].size) ==>
        bitmap == old(bitmap) && mem == old(mem) && files == old(files)[f := old(files[f]).(size := newsize)]
    {
      hide FreeSet, Inv, Truncated, Surplus, CutAt, NBlocks, Kept;
      if Inv(Now()) {
        ResizeKeeps(Now(), f, newsize);
      }
      if files[f].size > newsize {
        FileTruncateBlocks(f, newsize);
      }
      files := files[f := files[f].(size := newsize)];
    }

    /** One round of file_write: file_get_block and memmove. */
    method WriteChunk(f: nat, buf: seq<nat>, offset: nat, pos: nat) returns (r: Got, bn: nat)
      requires Sound() && f in files && offset <= pos < offset + |buf|
      modifies this`bitmap, this`files, this`mem
      ensures bn == Chunk(pos, offset + |buf|) && r == GetBlock(old(Now()), f, pos / BLKSIZE).1
      ensures r.Inval? ==> Sound() && f in files && Now() == GetBlock(old(Now()), f, pos / BLKSIZE).0
      ensures r.Got? ==> Storable(GetBlock(old(Now()), f, pos / BLKSIZE).0, r.b, pos % BLKSIZE, bn)
      ensures r.Got? ==> Sound() && f in files && Now() == Round(old(Now()), f, buf, offset, pos)
      ensures r.Panic? && Inv(old(Now())) && CleanWalk(old(Now()), f, pos / BLKSIZE) ==> FreeSet(bitmap, n) == {}
    {
      hide Inv, FreeSet, GetBlock, CleanWalk;
      ghost var s := Now();
      var i, o := pos / BLKSIZE, pos % BLKSIZE;
      GetBlockRange(s, f, i);
      r := FileGetBlock(f, i);
      bn := if BLKSIZE - o < offset + |buf| - pos then BLKSIZE - o else offset + |buf| - pos;
      if r.Got? {
        GetFacts(s, f, i);
        mem := mem[r.b := Splice(mem[r.b], o, buf[pos - offset..pos - offset + bn])];
      }
    }

    /**
     file_write, on any volume the value-level Write.  If growing the file cannot adopt a
     stale indirect block, it keeps all its promises, and panics only with a full disk.
     */
    method FileWrite(f: nat, buf: seq<nat>, offset: nat) returns (r: Written)
      requires Sound() && f in files
      modifies this`bitmap, this`files, this`mem
      ensures r == Write(old(Now()), f, buf, offset).1
      ensures !r.WritePanic? ==> Sound() && f in files && Now() == Write(old(Now()), f, buf, offset).0
      ensures Inv(old(Now())) && Roomy(old(Now()), f, offset / BLKSIZE, NBlocks(offset + |buf|)) ==>
        WriteOk(old(Now()), Now(), f, buf, offset, r) && (r.WritePanic? ==> FreeSet(bitmap, n) == {})
    {
      hide Inv, FreeSet, Roomy, Kept, Holds, NBlocks, Resized, WriteLoop, CleanWalk, GetBlock, Round, Chunk, Storable;
      ghost var s0, m := Now(), NBlocks(offset + |buf|);
      ghost var good := Inv(s0) && Roomy(s0, f, offset / BLKSIZE, m);
      var end := offset + |buf|;
      if good {
        WriteRight(s0, f, buf, offset);
        GrownStarts(s0, f, buf, offset);
      }
      if end > files[f].size {
        FileSetSize(f, end);
      }
      var pos := offset;
      while pos < end
        invariant offset <= pos <= end && Sound() && f in files
        invariant WriteLoop(Now(), f, buf, offset, pos) == Write(s0, f, buf, offset)
        invariant good ==> Underway(s0, Now(), f, buf, offset, pos, m)
      {
        ghost var s := Now();
        LoopUnfolds(s, f, buf, offset, pos);
        if good {
          UnderwayClean(s0, s, f, buf, offset, pos, m);
        }
        var got, bn := WriteChunk(f, buf, offset, pos);
        if got.Panic? {
          return WritePanic;
        }
        if got.Inval? {
          return WriteInval;
        }
        if good {
          RoundRight(s0, s, f, buf, offset, pos, m);
        }
        pos := pos + bn;
      }
      LoopEnds(Now(), f, buf, offset);
      r := Wrote(|buf|);
    }

    /** One round of file_read: file_get_block, which allocates holes, and memmove. */
    method ReadChunk(f: nat, out: seq<nat>, offset: nat, end: nat) returns (r: Got, out1: seq<nat>)
      requires Sound() && f in files && offset + |out| < end
      modifies this`bitmap, this`files, this`mem
      ensures r == GetBlock(old(Now()), f, (offset + |out|) / BLKSIZE).1
      ensures !r.Panic? ==> Sound() && f in files && Now() == GetBlock(old(Now()), f, (offset + |out|) / BLKSIZE).0
      ensures r.Got? ==>
        && Storable(Now(), r.b, (offset + |out|) % BLKSIZE, Chunk(offset + |out|, end))
        && out1 == Longer(old(Now()), f, offset, end, out)
      ensures r.Panic? && Inv(old(Now())) && CleanWalk(old(Now()), f, (offset + |out|) / BLKSIZE) ==>
        FreeSet(bitmap, n) == {}
    {
      hide Inv, FreeSet, GetBlock, CleanWalk;
      ghost var s := Now();
      var pos := offset + |out|;
      var i, o := pos / BLKSIZE, pos % BLKSIZE;
      GetBlockRange(s, f, i);
      r := FileGetBlock(f, i);
      out1 := out;
      if r.Got? {
        GetFacts(s, f, i);
        var bn := if BLKSIZE - o < end - pos then BLKSIZE - o else end - pos;
        out1 := out + mem[r.b][o..o + bn];
      }
    }

    /** file_read: the bytes of the file, after holes in the range have been given blocks. */
    method FileRead(f: nat, count: nat, offset: nat) returns (r: Read)
      requires Sound() && f in files
      modifies this`bitmap, this`files, this`mem
      ensures r == ReadFile(old(Now()), f, count, offset).1
      ensures !r.ReadPanic? ==> Sound() && Now() == ReadFile(old(Now()), f, count, offset).0
      ensures var end := offset + ReadLength(old(files)[f].size, count, offset);
        Inv(old(Now())) && Roomy(old(Now()), f, offset / BLKSIZE, NBlocks(end)) ==>
        ReadOk(old(Now()), Now(), f, count, offset, r) && (r.ReadPanic? ==> FreeSet(bitmap, n) == {})
    {
      hide Inv, FreeSet, Roomy, Kept, Holds, NBlocks, Allocated, ReadLoop, CleanWalk, GetBlock, Longer, Chunk, Storable;
      ghost var s0 := Now();
      ghost var end0 := offset + ReadLength(files[f].size, count, offset);
      ghost var good := Inv(s0) && Roomy(s0, f, offset / BLKSIZE, NBlocks(end0));
      if good {
        ReadRight(s0, f, count, offset);
        ReadStarts(s0, f, count, offset);
      }
      if offset >= files[f].size {
        ReadEnds(s0, f, offset, end0, []);
        return Bytes([]);
      }
      var c := if count < files[f].size - offset then count else files[f].size - offset;
      var out: seq<nat> := [];
      while offset + |out| < offset + c
        invariant |out| <= c && Sound() && f in files
        invariant ReadLoop(Now(), f, offset, end0, out) == ReadFile(s0, f, count, offset)
        invariant good ==> Reading(s0, Now(), f, offset, end0, out)
        decreases c - |out|
      {
        ghost var s := Now();
        ReadStops(s, f, offset, end0, out, offset + |out|);
        if good {
          ReadingClean(s0, s, f, offset, end0, out);
        }
        var got, out1 := ReadChunk(f, out, offset, offset + c);
        if got.Panic? {
          return ReadPanic;
        }
        if got.Inval? {
          return ReadInval;
        }
        ReadGoesOn(s, f, offset, end0, out);
        if good {
          ReadRound(s0, s, f, offset, end0, out);
        }
        out := out1;
      }
      ReadEnds(Now(), f, offset, end0, out);
      r := Bytes(out);
    }

    /** What file_write wrote, file_read returns; that read never runs out of blocks. */
    method WriteThenRead(f: nat, buf: seq<nat>, offset: nat) returns (w: Written, r: Read)
      requires Sound() && f in files
      modifies this`bitmap, this`files, this`mem
      ensures w.Wrote? && Inv(old(Now())) && Roomy(old(Now()), f, offset / BLKSIZE, NBlocks(offset + |buf|)) ==>
        r == Bytes(buf)
    {
      hide Inv, FreeSet, Kept, Holds, Roomy, NBlocks, Allocated, Write, ReadLoop;
      ghost var good := Inv(Now()) && Roomy(Now(), f, offset / BLKSIZE, NBlocks(offset + |buf|));
      w := FileWrite(f, buf, offset);
      r := ReadPanic;
      if w.Wrote? {
        ghost var s := Now();
        ReadEnds(s, f, offset, offset, []);
        if good && buf != [] {
          HoldsAllocated(s, f, buf, offset);
          HoldsRoomy(s, f, buf, offset, offset / BLKSIZE);
        }
        r := FileRead(f, |buf|, offset);
        if good && r.Bytes? && buf != [] {
          HoldsKept(s, Now(), f, buf, offset, offset, offset + |buf|, 0, 0);
          HoldsUnique(Now(), f, buf, r.data, offset);
        }
      }
    }
  }

  /** None is left exactly when the set is empty, and block 0 is the lowest if it is there. */
  lemma LowestOrNone(bitmap: seq<bv32>, n: nat)
    ensures var free := FreeSet(bitmap, n);
      && (LowestFrom(free, 0, n).None? <==> free == {})
      && (LowestFrom(free, 0, n) == Some(0) <==> 0 in free)
  {
    LowestIff(FreeSet(bitmap, n), n);
  }

  /** On a volume where conservation holds, only a full disk makes file_block_walk panic. */
  lemma WalkFacts(s: Fs, f: nat)
    requires f in s.files
    ensures Inv(s) ==>
      && (s.files[f].indirect < s.n || s.files[f].indirect == 0)
      && (Lowest(s).Some? ==> 0 < Lowest(s).value < s.n)
      && (Lowest(s).None? ==> s.free == {})
  {
  }

  /** And only a full disk or a stale block makes the rest of file_get_block panic. */
  lemma SlotFacts(s: Fs, f: nat, i: nat)
    requires f in s.files && i < MAXBLOCKS && Walked(s, f, i).Some?
    ensures f in Walked(s, f, i).value.files
    ensures Inv(s) ==> var t := Walked(s, f, i).value;
      && (CleanWalk(s, f, i) && SlotVal(t.mem, t.files[f], i) != 0 ==> SlotVal(t.mem, t.files[f], i) < s.n)
      && (Lowest(t).Some? ==> 0 < Lowest(t).value < s.n)
  {
  }

  lemma GetFacts(s: Fs, f: nat, i: nat)
    requires f in s.files && GetBlock(s, f, i).1.Got?
    ensures f in GetBlock(s, f, i).0.files && GetBlock(s, f, i).1.b < s.n == GetBlock(s, f, i).0.n
  {
  }

  lemma UnderwayClean(s0: Fs, s: Fs, f: nat, buf: seq<nat>, offset: nat, pos: nat, m: nat)
    requires Underway(s0, s, f, buf, offset, pos, m) && pos < offset + |buf|
    ensures Inv(s) && CleanWalk(s, f, pos / BLKSIZE)
  {
    hide Inv, Roomy, Kept, Holds, CleanWalk, NBlocks;
    BlockOfPosition(pos, offset + |buf|, s.files[f].size);
    RoomyClean(s, f, m, pos / BLKSIZE);
  }

  lemma ReadingClean(s0: Fs, s: Fs, f: nat, offset: nat, end: nat, out: seq<nat>)
    requires Reading(s0, s, f, offset, end, out) && offset + |out| < end
    ensures Inv(s) && CleanWalk(s, f, (offset + |out|) / BLKSIZE)
  {
    hide Inv, Roomy, Kept, Holds, CleanWalk, NBlocks;
    BlockOfPosition(offset + |out|, end, s.files[f].size);
    RoomyClean(s, f, NBlocks(end), (offset + |out|) / BLKSIZE);
  }

  lemma HoldsAllocated(s: Fs, f: nat, buf: seq<nat>, at: nat)
    requires f in s.files && buf != [] && Holds(s, f, buf, at, at, at + |buf|)
    ensures Allocated(s, f, at, at + |buf|)
  {
    hide SlotVal, Byte;
    forall i | 0 <= i < MAXBLOCKS && at < (i + 1) * BLKSIZE && i * BLKSIZE < at + |buf|
      ensures SlotVal(s.mem, s.files[f], i) != 0
    {
      assert HeldAt(s, f, i, if at < i * BLKSIZE then 0 else at - i * BLKSIZE, buf, at);
    }
  }

  /** The bytes of a range are determined. */
  lemma HoldsUnique(s: Fs, f: nat, a: seq<nat>, b: seq<nat>, at: nat)
    requires f in s.files && |a| == |b| && at + |a| <= MAXFILESIZE
    requires Holds(s, f, a, at, at, at + |a|) && Holds(s, f, b, at, at, at + |b|)
    ensures a == b
  {
    hide SlotVal, Byte;
    forall k | 0 <= k < |a| ensures a[k] == b[k] {
      var i, o := (at + k) / BLKSIZE, (at + k) % BLKSIZE;
      assert HeldAt(s, f, i, o, a, at) && HeldAt(s, f, i, o, b, at);
    }
  }

  /** A range that is all there needs no indirect block any more. */
  lemma HoldsRoomy(s: Fs, f: nat, buf: seq<nat>, at: nat, lo: nat)
    requires f in s.files && buf != [] && Holds(s, f, buf, at, at, at + |buf|) && at + |buf| <= MAXFILESIZE
    ensures Roomy(s, f, lo, NBlocks(at + |buf|))
  {
    hide ZeroWords, Entry, Byte;
    var p := at + |buf| - 1;
    assert HeldAt(s, f, p / BLKSIZE, p % BLKSIZE, buf, at);
  }

  lemma FreeSlotSound(s: Fs, f: nat, i: nat)
    requires Inv(s) && f in s.files
    ensures Inv(FreeSlot(s, f, i)) && Shaped(FreeSlot(s, f, i)) && f in FreeSlot(s, f, i).files
    ensures NeedsIndirect(s, f, i) || i >= MAXBLOCKS ==> FreeSlot(s, f, i) == s
  {
    hide Inv;
    FreeSlotKeeps(s, f, i);
    InvShaped(FreeSlot(s, f, i));
  }

  lemma SlotInRange(s: Fs, f: nat, i: nat)
    requires Inv(s) && f in s.files && i < MAXBLOCKS && SlotVal(s.mem, s.files[f], i) != 0
    ensures SlotVal(s.mem, s.files[f], i) < s.n
  {
  }

  lemma TruncatedIs(s: Fs, f: nat, newsize: nat)
    requires f in s.files
    ensures var t := FreeSlots(s, f, NBlocks(newsize), NBlocks(s.files[f].size));
      Truncated(s, f, newsize) == if f in t.files then FreeIndirect(t, f, NBlocks(newsize)) else t
  {
  }

  lemma TruncatedSound(s: Fs, f: nat, newsize: nat)
    requires Inv(s) && f in s.files && newsize <= s.files[f].size
    ensures Shaped(Truncated(s, f, newsize)) && f in Truncated(s, f, newsize).files
  {
    TruncateExact(s, f, newsize);
    InvShaped(Truncated(s, f, newsize));
  }

  lemma IndirectInRange(s: Fs, f: nat)
    requires Inv(s) && f in s.files
    ensures s.files[f].indirect < s.n || s.files[f].indirect == 0
  {
  }

  lemma DerefIsSlot(s: Fs, f: nat, i: nat)
    requires Shaped(s) && f in s.files && i < MAXBLOCKS && PtrOk(s.n, PtrTo(s.files[f], i))
    ensures SlotVal(s.mem, s.files[f], i) ==
      match PtrTo(s.files[f], i) case DirectPtr(k) => s.files[f].direct[k] case EntryPtr(b, j) => Word(s.mem[b], j)
  {
  }

  lemma AssignIsSlot(s: Fs, f: nat, i: nat, v: nat)
    requires Shaped(s) && f in s.files && i < MAXBLOCKS && PtrOk(s.n, PtrTo(s.files[f], i))
    ensures var p := PtrTo(s.files[f], i);
      && (p.DirectPtr? ==>
            s.files[f := SlotFile(s.files[f], p.i, v)] == s.files[f := SlotFile(s.files[f], i, v)]
            && s.mem == SlotMem(s.mem, s.files[f], i, v))
      && (p.EntryPtr? ==>
            s.files == s.files[f := SlotFile(s.files[f], i, v)]
            && s.mem[p.b := SetWord(s.mem[p.b], p.j, v)] == SlotMem(s.mem, s.files[f], i, v))
  {
  }

  lemma LowestHere(bitmap: seq<bv32>, n: nat, b: nat)
    requires b < n <= 32 * |bitmap| && Bit(bitmap[b / 32], b % 32)
    ensures LowestFrom(FreeSet(bitmap, n), b, n) == Some(b)
  {
  }

  lemma NotFreeHere(bitmap: seq<bv32>, n: nat, b: nat)
    requires b < n <= 32 * |bitmap| && !Bit(bitmap[b / 32], b % 32)
    ensures b !in FreeSet(bitmap, n)
  {
  }

  lemma LowestPast(free: set<nat>, b: nat, n: nat)
    requires b >= n
    ensures LowestFrom(free, b, n) == None
  {
  }
}
