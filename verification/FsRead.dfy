/**
 The loop of file_read (fs/fs.c) on values.  It gives holes in the range blocks, so it
 too can adopt a stale indirect block.
 */
module FsRead {
  import opened Common
  import opened FsLayout
  import opened FsBlocks
  import opened FsBytes
  import opened FsWrite

  datatype Read = Bytes(data: seq<nat>) | ReadInval | ReadPanic

  function ReadLength(size: nat, count: nat, offset: nat): (n: nat)
    ensures n <= count && (n > 0 ==> offset + n <= size) && (n < count ==> offset + n >= size)
  {
    if offset >= size then 0 else if count < size - offset then count else size - offset
  }

  /** The loop of file_read with `out` already read. */
  ghost function ReadLoop(s: Fs, f: nat, offset: nat, end: nat, out: seq<nat>): (Fs, Read)
    decreases end - |out|
  {
    var pos := offset + |out|;
    if pos >= end then (s, Bytes(out))
    else if f !in s.files then (s, ReadPanic)
    else
      var (t, r) := GetBlock(s, f, pos / BLKSIZE);
      var n := Chunk(pos, end);
      match r
      case Inval => (t, ReadInval)
      case Panic => (t, ReadPanic)
      case Got(b) =>
        if Storable(t, b, pos % BLKSIZE, n)
        then ReadLoop(t, f, offset, end, out + t.mem[b][pos % BLKSIZE..pos % BLKSIZE + n])
        else (t, ReadPanic)
  }

  /** file_read. */
  ghost function ReadFile(s: Fs, f: nat, count: nat, offset: nat): (Fs, Read)
    requires f in s.files
  {
    ReadLoop(s, f, offset, offset + ReadLength(s.files[f].size, count, offset), [])
  }

  /** Every slot that positions [lo, hi) fall into has a block. */
  ghost predicate Allocated(s: Fs, f: nat, lo: nat, hi: nat)
    requires f in s.files
  {
    forall i :: 0 <= i < MAXBLOCKS && lo < (i + 1) * BLKSIZE && i * BLKSIZE < hi ==> SlotVal(s.mem, s.files[f], i) != 0
  }

  /** What file_read promises of its outcome. */
  ghost predicate ReadOk(s: Fs, u: Fs, f: nat, count: nat, offset: nat, r: Read)
    requires f in s.files
  {
    && (r.Bytes? ==> |r.data| == ReadLength(s.files[f].size, count, offset))
    && (r.Bytes? ==> f in u.files && Holds(u, f, r.data, offset, offset, offset + |r.data|))
    && (!r.ReadPanic? ==>
          Inv(u) && f in u.files && u.files[f].size == s.files[f].size && Kept(s, u, f, 0, 0))
    && (r.ReadInval? ==> offset + count > MAXFILESIZE && s.files[f].size > MAXFILESIZE)
    && (r.ReadPanic? ==> !Allocated(s, f, offset, offset + count))
  }

  // ------------------------------------------------------------------- one round

  lemma AllocatedKept(s: Fs, t: Fs, f: nat, lo: nat, hi: nat)
    requires f in s.files && f in t.files && Kept(s, t, f, 0, 0)
    ensures Allocated(s, f, lo, hi) ==> Allocated(t, f, lo, hi)
  {
  }

  /** A read of a block that is there finds it. */
  lemma NoPanicIfThere(s: Fs, f: nat, i: nat)
    requires Inv(s) && f in s.files
    ensures i < MAXBLOCKS && SlotVal(s.mem, s.files[f], i) != 0 ==> GetBlock(s, f, i).1.Got?
  {
  }

  lemma ReadMore(s: Fs, t: Fs, f: nat, out: seq<nat>, offset: nat, i: nat, o: nat, bn: nat)
    requires f in s.files && f in t.files && i < MAXBLOCKS && o + bn <= BLKSIZE && offset + |out| == i * BLKSIZE + o
    requires Holds(s, f, out, offset, offset, offset + |out|) && Kept(s, t, f, 0, 0)
    requires var b := SlotVal(t.mem, t.files[f], i); b != 0 && b < |t.mem| && |t.mem[b]| == BLKSIZE
    ensures var out1 := out + t.mem[SlotVal(t.mem, t.files[f], i)][o..o + bn];
      Holds(t, f, out1, offset, offset, offset + |out| + bn)
  {
    hide SlotVal;
    var b := SlotVal(t.mem, t.files[f], i);
    var out1 := out + t.mem[b][o..o + bn];
    HoldsKept(s, t, f, out, offset, offset, offset + |out|, 0, 0);
    assert Holds(t, f, out1, offset, offset, i * BLKSIZE + o) by {
      forall j, k | 0 <= j < MAXBLOCKS && 0 <= k < BLKSIZE && offset <= j * BLKSIZE + k < i * BLKSIZE + o
        ensures HeldAt(t, f, j, k, out1, offset)
      {
        assert HeldAt(t, f, j, k, out, offset);
      }
    }
    HoldsMore(t, f, out1, offset, i, o, bn);
  }

  /** How far a read has come. */
  ghost predicate Reading(s0: Fs, s: Fs, f: nat, offset: nat, end: nat, out: seq<nat>) {
    && f in s.files && Inv(s) && offset + |out| <= end && (offset + |out| < end ==> end <= s.files[f].size)
    && Roomy(s, f, (offset + |out|) / BLKSIZE, NBlocks(end))
    && Holds(s, f, out, offset, offset, offset + |out|) && Kept(s0, s, f, 0, 0)
  }

  /** The bytes after one round. */
  ghost function Longer(s: Fs, f: nat, offset: nat, end: nat, out: seq<nat>): (r: seq<nat>)
    requires f in s.files && offset + |out| < end && GetBlock(s, f, (offset + |out|) / BLKSIZE).1.Got?
    requires Storable(GetBlock(s, f, (offset + |out|) / BLKSIZE).0, GetBlock(s, f, (offset + |out|) / BLKSIZE).1.b,
                      (offset + |out|) % BLKSIZE, Chunk(offset + |out|, end))
    ensures |r| == |out| + Chunk(offset + |out|, end)
  {
    var o, n := (offset + |out|) % BLKSIZE, Chunk(offset + |out|, end);
    var (t, r) := GetBlock(s, f, (offset + |out|) / BLKSIZE);
    out + t.mem[r.b][o..o + n]
  }

  /** One round of file_read without a stale block. */
  lemma ReadRound(s0: Fs, s: Fs, f: nat, offset: nat, end: nat, out: seq<nat>)
    requires Reading(s0, s, f, offset, end, out) && offset + |out| < end
    requires GetBlock(s, f, (offset + |out|) / BLKSIZE).1.Got?
    ensures var (t, r) := GetBlock(s, f, (offset + |out|) / BLKSIZE);
      && Storable(t, r.b, (offset + |out|) % BLKSIZE, Chunk(offset + |out|, end))
      && Reading(s0, t, f, offset, end, Longer(s, f, offset, end, out)) && t.files[f].size == s.files[f].size
  {
    hide Inv, SlotVal, Roomy, Kept, Holds, GetBlock, NBlocks, Byte;
    var pos := offset + |out|;
    var i, o, n := pos / BLKSIZE, pos % BLKSIZE, Chunk(pos, end);
    BlockOfPosition(pos, end, s.files[f].size);
    GetStep(s, f, i, NBlocks(end));
    var t := GetBlock(s, f, i).0;
    ReadMore(s, t, f, out, offset, i, o, n);
    NextBlock(pos, n);
    RoomyNext(t, f, i, NBlocks(end));
    KeptTrans(s0, s, t, f, 0, 0);
  }

  /** One round of the loop, whatever the state: it stops here, */
  lemma ReadStops(s: Fs, f: nat, offset: nat, end: nat, out: seq<nat>, pos: nat)
    requires f in s.files && pos == offset + |out| < end
    ensures var (t, r) := GetBlock(s, f, pos / BLKSIZE);
      var w := ReadLoop(s, f, offset, end, out);
      && (r.Inval? ==> w == (t, ReadInval))
      && (r.Panic? ==> w == (t, ReadPanic))
      && (r.Got? && !Storable(t, r.b, pos % BLKSIZE, Chunk(pos, end)) ==> w == (t, ReadPanic))
  {
    hide GetBlock, Chunk;
  }

  /** or goes on. */
  lemma ReadGoesOn(s: Fs, f: nat, offset: nat, end: nat, out: seq<nat>)
    requires f in s.files && offset + |out| < end && GetBlock(s, f, (offset + |out|) / BLKSIZE).1.Got?
    requires Storable(GetBlock(s, f, (offset + |out|) / BLKSIZE).0, GetBlock(s, f, (offset + |out|) / BLKSIZE).1.b,
                      (offset + |out|) % BLKSIZE, Chunk(offset + |out|, end))
    ensures ReadLoop(s, f, offset, end, out) ==
      ReadLoop(GetBlock(s, f, (offset + |out|) / BLKSIZE).0, f, offset, end, Longer(s, f, offset, end, out))
  {
    hide GetBlock, Chunk;
  }

  lemma ReadEnds(s: Fs, f: nat, offset: nat, end: nat, out: seq<nat>)
    requires offset + |out| >= end
    ensures ReadLoop(s, f, offset, end, out) == (s, Bytes(out))
  {
  }

  lemma InAllocated(s: Fs, f: nat, lo: nat, hi: nat, pos: nat)
    requires f in s.files && Allocated(s, f, lo, hi) && lo <= pos < hi && pos / BLKSIZE < MAXBLOCKS
    ensures SlotVal(s.mem, s.files[f], pos / BLKSIZE) != 0
  {
    hide SlotVal;
    assert lo < (pos / BLKSIZE + 1) * BLKSIZE && pos / BLKSIZE * BLKSIZE < hi;
  }

  /** What the loop of file_read ends in without a stale block. */
  ghost predicate ReadingOk(s0: Fs, s: Fs, f: nat, offset: nat, end: nat, u: Fs, r: Read) {
    && (r.Bytes? ==> Reading(s0, u, f, offset, end, r.data) && offset + |r.data| == end)
    && (r.ReadInval? ==> offset < end && end > MAXFILESIZE && f in u.files && Inv(u) && Kept(s0, u, f, 0, 0))
    && (!r.ReadPanic? ==> f in s.files && f in u.files && u.files[f].size == s.files[f].size)
    && (r.ReadPanic? ==> f in s0.files && !Allocated(s0, f, offset, end))
  }

  lemma {:induction false} ReadLoopRight(s0: Fs, s: Fs, f: nat, offset: nat, end: nat, out: seq<nat>)
    requires Reading(s0, s, f, offset, end, out) && f in s0.files
    ensures ReadingOk(s0, s, f, offset, end, ReadLoop(s, f, offset, end, out).0, ReadLoop(s, f, offset, end, out).1)
    decreases end - |out|
  {
    hide Inv, Roomy, Kept, Holds, GetBlock, NBlocks, Longer, Allocated, SlotVal, ReadLoop, Chunk;
    if offset + |out| >= end {
      ReadEnds(s, f, offset, end, out);
    } else {
      var pos := offset + |out|;
      BlockOfPosition(pos, end, s.files[f].size);
      GetBlockRange(s, f, pos / BLKSIZE);
      ReadStops(s, f, offset, end, out, pos);
      var r := GetBlock(s, f, pos / BLKSIZE).1;
      if r.Got? {
        ReadRound(s0, s, f, offset, end, out);
        ReadGoesOn(s, f, offset, end, out);
        ReadLoopRight(s0, GetBlock(s, f, pos / BLKSIZE).0, f, offset, end, Longer(s, f, offset, end, out));
      } else if r.Panic? {
        NoPanicIfThere(s, f, pos / BLKSIZE);
        AllocatedKept(s0, s, f, offset, end);
        if Allocated(s, f, offset, end) {
          InAllocated(s, f, offset, end, pos);
        }
      }
    }
  }

  lemma ReadStarts(s: Fs, f: nat, count: nat, offset: nat)
    requires Inv(s) && f in s.files
    requires Roomy(s, f, offset / BLKSIZE, NBlocks(offset + ReadLength(s.files[f].size, count, offset)))
    ensures Reading(s, s, f, offset, offset + ReadLength(s.files[f].size, count, offset), [])
  {
    hide Inv, Roomy, Kept, Holds, NBlocks;
    KeptSame(s, f);
    HoldsNone(s, f, [], offset);
  }

  lemma AllocatedLess(s: Fs, f: nat, lo: nat, hi: nat, more: nat)
    requires f in s.files && Allocated(s, f, lo, more) && hi <= more
    ensures Allocated(s, f, lo, hi)
  {
  }

  /** Without a stale block, file_read returns the bytes of the file and changes none. */
  lemma ReadRight(s: Fs, f: nat, count: nat, offset: nat)
    requires Inv(s) && f in s.files
    requires Roomy(s, f, offset / BLKSIZE, NBlocks(offset + ReadLength(s.files[f].size, count, offset)))
    ensures ReadOk(s, ReadFile(s, f, count, offset).0, f, count, offset, ReadFile(s, f, count, offset).1)
  {
    hide Inv, Roomy, Kept, Holds, NBlocks, Allocated, ReadLoop;
    var end := offset + ReadLength(s.files[f].size, count, offset);
    KeptSame(s, f);
    HoldsNone(s, f, [], offset);
    ReadLoopRight(s, s, f, offset, end, []);
    if Allocated(s, f, offset, offset + count) {
      AllocatedLess(s, f, offset, end, offset + count);
    }
  }
}
