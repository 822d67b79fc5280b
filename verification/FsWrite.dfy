/**
 The loop of file_write (fs/fs.c) on values: it keeps its promises if it adopts no stale
 indirect block.  Module FsStale has the converse.
 */
module FsWrite {
  import opened Common
  import opened FsLayout
  import opened FsBlocks
  import opened FsBytes

  datatype Written = Wrote(count: nat) | WriteInval | WritePanic

  /** The bytes that one round moves: up to the end of the block or of the range. */
  function Chunk(pos: nat, end: nat): (n: nat)
    requires pos < end
    ensures 0 < n && pos + n <= end && pos % BLKSIZE + n <= BLKSIZE
  {
    if BLKSIZE - pos % BLKSIZE < end - pos then BLKSIZE - pos % BLKSIZE else end - pos
  }

  predicate Storable(s: Fs, b: nat, o: nat, n: nat) {
    b < |s.mem| && o + n <= |s.mem[b]|
  }

  /** The loop of file_write from position pos on. */
  ghost function WriteLoop(s: Fs, f: nat, buf: seq<nat>, offset: nat, pos: nat): (Fs, Written)
    requires offset <= pos <= offset + |buf|
    decreases offset + |buf| - pos
  {
    if pos == offset + |buf| then (s, Wrote(|buf|))
    else if f !in s.files then (s, WritePanic)
    else
      var (t, r) := GetBlock(s, f, pos / BLKSIZE);
      var n := Chunk(pos, offset + |buf|);
      match r
      case Inval => (t, WriteInval)
      case Panic => (t, WritePanic)
      case Got(b) =>
        if Storable(t, b, pos % BLKSIZE, n)
        then WriteLoop(Poked(t, b, pos % BLKSIZE, buf[pos - offset..pos - offset + n]), f, buf, offset, pos + n)
        else (t, WritePanic)
  }

  /** file_write: the size first, then the bytes. */
  ghost function Write(s: Fs, f: nat, buf: seq<nat>, offset: nat): (Fs, Written)
    requires f in s.files
  {
    WriteLoop(Grown(s, f, offset + |buf|), f, buf, offset, offset)
  }

  ghost function Grown(s: Fs, f: nat, end: nat): Fs
    requires f in s.files
  {
    if end > s.files[f].size then Resized(s, f, end) else s
  }

  /** What file_write promises of its outcome. */
  ghost predicate WriteOk(s: Fs, u: Fs, f: nat, buf: seq<nat>, offset: nat, r: Written)
    requires f in s.files
  {
    && (r.Wrote? ==> r.count == |buf| && (buf == [] || offset + |buf| <= MAXFILESIZE))
    && (r.WriteInval? ==> offset + |buf| > MAXFILESIZE)
    && (!r.WritePanic? ==>
          && Inv(u) && f in u.files && Kept(s, u, f, offset, offset + |buf|)
          && u.files[f].size == if offset + |buf| > s.files[f].size then offset + |buf| else s.files[f].size)
    && (r.Wrote? ==> f in u.files && Holds(u, f, buf, offset, offset, offset + |buf|))
  }

  /** The state after one round. */
  ghost function Round(s: Fs, f: nat, buf: seq<nat>, offset: nat, pos: nat): Fs
    requires f in s.files && offset <= pos < offset + |buf| && GetBlock(s, f, pos / BLKSIZE).1.Got?
    requires Storable(GetBlock(s, f, pos / BLKSIZE).0, GetBlock(s, f, pos / BLKSIZE).1.b,
                      pos % BLKSIZE, Chunk(pos, offset + |buf|))
  {
    var n := Chunk(pos, offset + |buf|);
    Poked(GetBlock(s, f, pos / BLKSIZE).0, GetBlock(s, f, pos / BLKSIZE).1.b, pos % BLKSIZE,
          buf[pos - offset..pos - offset + n])
  }

  lemma BlockOfPosition(pos: nat, end: nat, size: nat)
    requires pos < end <= size
    ensures pos / BLKSIZE < NBlocks(end) <= NBlocks(size) && pos == pos / BLKSIZE * BLKSIZE + pos % BLKSIZE
    ensures pos / BLKSIZE < MAXBLOCKS <==> pos < MAXFILESIZE
    ensures pos < MAXFILESIZE ==> pos + Chunk(pos, end) <= MAXFILESIZE
  {
  }

  lemma NextBlock(pos: nat, bn: nat)
    requires pos % BLKSIZE + bn <= BLKSIZE
    ensures (pos + bn) / BLKSIZE == if pos % BLKSIZE + bn < BLKSIZE then pos / BLKSIZE else pos / BLKSIZE + 1
  {
  }

  lemma GetBlockRange(s: Fs, f: nat, i: nat)
    requires f in s.files
    ensures GetBlock(s, f, i).1.Inval? <==> i >= MAXBLOCKS
    ensures i >= MAXBLOCKS ==> GetBlock(s, f, i).0 == s
  {
  }

  lemma KeptAnywhere(s: Fs, t: Fs, f: nat, at: nat)
    requires Kept(s, t, f, 0, 0)
    ensures Kept(s, t, f, at, at)
  {
  }

  lemma HoldsNone(s: Fs, f: nat, buf: seq<nat>, at: nat)
    requires f in s.files
    ensures Holds(s, f, buf, at, at, at)
  {
  }

  lemma WroteChunk(s: Fs, t: Fs, u: Fs, f: nat, buf: seq<nat>, offset: nat, i: nat, o: nat, bn: nat)
    requires f in s.files && f in t.files && f in u.files && i < MAXBLOCKS && o + bn <= BLKSIZE
    requires offset <= i * BLKSIZE + o && i * BLKSIZE + o + bn <= offset + |buf|
    requires Holds(s, f, buf, offset, offset, i * BLKSIZE + o) && Kept(s, t, f, 0, 0)
    requires Kept(t, u, f, i * BLKSIZE + o, i * BLKSIZE + o + bn) && SlotVal(u.mem, u.files[f], i) != 0
    requires forall k :: o <= k < o + bn ==>
      FileByte(u, f, i, k) == buf[i * BLKSIZE + o - offset..i * BLKSIZE + o - offset + bn][k - o]
    ensures Holds(u, f, buf, offset, offset, i * BLKSIZE + o + bn)
    ensures Kept(s, u, f, i * BLKSIZE + o, i * BLKSIZE + o + bn)
  {
    hide SlotVal, Byte, Kept, Holds;
    var pos := i * BLKSIZE + o;
    HoldsKept(s, t, f, buf, offset, offset, pos, 0, 0);
    HoldsKept(t, u, f, buf, offset, offset, pos, pos, pos + bn);
    HoldsMore(u, f, buf, offset, i, o, bn);
    KeptAnywhere(s, t, f, pos);
    KeptWider(s, t, f, pos, pos, pos, pos + bn);
    KeptTrans(s, t, u, f, pos, pos + bn);
  }

  /** How far a write has come: the bytes up to pos are there, and nothing else changed. */
  ghost predicate Underway(s0: Fs, s: Fs, f: nat, buf: seq<nat>, offset: nat, pos: nat, m: nat) {
    && f in s.files && Inv(s) && offset <= pos <= offset + |buf| <= s.files[f].size
    && Roomy(s, f, pos / BLKSIZE, m) && NBlocks(offset + |buf|) <= m
    && Holds(s, f, buf, offset, offset, pos) && Kept(s0, s, f, offset, pos)
    && (pos > offset ==> pos <= MAXFILESIZE)
  }

  /** One round of file_write without a stale block. */
  lemma RoundRight(s0: Fs, s: Fs, f: nat, buf: seq<nat>, offset: nat, pos: nat, m: nat)
    requires Underway(s0, s, f, buf, offset, pos, m) && pos < offset + |buf| && GetBlock(s, f, pos / BLKSIZE).1.Got?
    ensures Storable(GetBlock(s, f, pos / BLKSIZE).0, GetBlock(s, f, pos / BLKSIZE).1.b,
                     pos % BLKSIZE, Chunk(pos, offset + |buf|))
    ensures var u := Round(s, f, buf, offset, pos);
      Underway(s0, u, f, buf, offset, pos + Chunk(pos, offset + |buf|), m) && u.files[f].size == s.files[f].size
  {
    hide Inv, SlotVal, Roomy, Kept, Holds, GetBlock, NBlocks, Byte, Splice;
    var i, o, n := pos / BLKSIZE, pos % BLKSIZE, Chunk(pos, offset + |buf|);
    BlockOfPosition(pos, offset + |buf|, s.files[f].size);
    GetStep(s, f, i, m);
    var t := GetBlock(s, f, i).0;
    var u := Round(s, f, buf, offset, pos);
    PokeKeeps(t, f, i, o, buf[pos - offset..pos - offset + n], m);
    WroteChunk(s, t, u, f, buf, offset, i, o, n);
    NextBlock(pos, n);
    RoomyNext(u, f, i, m);
    KeptWider(s0, s, f, offset, pos, offset, pos + n);
    KeptWider(s, u, f, pos, pos + n, offset, pos + n);
    KeptTrans(s0, s, u, f, offset, pos + n);
  }

  /** One round of the loop, whatever the state. */
  lemma LoopUnfolds(s: Fs, f: nat, buf: seq<nat>, offset: nat, pos: nat)
    requires f in s.files && offset <= pos < offset + |buf|
    ensures var (t, r) := GetBlock(s, f, pos / BLKSIZE);
      var w := WriteLoop(s, f, buf, offset, pos);
      && (r.Inval? ==> w == (t, WriteInval))
      && (r.Panic? ==> w == (t, WritePanic))
      && (r.Got? && !Storable(t, r.b, pos % BLKSIZE, Chunk(pos, offset + |buf|)) ==> w == (t, WritePanic))
      && (r.Got? && Storable(t, r.b, pos % BLKSIZE, Chunk(pos, offset + |buf|)) ==>
            w == WriteLoop(Round(s, f, buf, offset, pos), f, buf, offset, pos + Chunk(pos, offset + |buf|)))
  {
    hide GetBlock, Chunk;
  }

  /** What the loop of file_write ends in without a stale block. */
  ghost predicate LoopOk(s0: Fs, s: Fs, f: nat, buf: seq<nat>, offset: nat, m: nat, u: Fs, r: Written) {
    && (r.Wrote? ==> Underway(s0, u, f, buf, offset, offset + |buf|, m) && r.count == |buf|)
    && (r.WriteInval? ==>
          offset + |buf| > MAXFILESIZE && f in u.files && Inv(u) && Kept(s0, u, f, offset, offset + |buf|))
    && (!r.WritePanic? ==> f in s.files && f in u.files && u.files[f].size == s.files[f].size)
  }

  lemma {:induction false} LoopRight(s0: Fs, s: Fs, f: nat, buf: seq<nat>, offset: nat, pos: nat, m: nat)
    requires Underway(s0, s, f, buf, offset, pos, m)
    ensures LoopOk(s0, s, f, buf, offset, m, WriteLoop(s, f, buf, offset, pos).0, WriteLoop(s, f, buf, offset, pos).1)
    decreases offset + |buf| - pos
  {
    hide Inv, Roomy, Kept, Holds, GetBlock, NBlocks, Round;
    if pos < offset + |buf| {
      BlockOfPosition(pos, offset + |buf|, s.files[f].size);
      GetBlockRange(s, f, pos / BLKSIZE);
      LoopUnfolds(s, f, buf, offset, pos);
      hide WriteLoop, Chunk;
      if GetBlock(s, f, pos / BLKSIZE).1.Got? {
        RoundRight(s0, s, f, buf, offset, pos, m);
        LoopRight(s0, Round(s, f, buf, offset, pos), f, buf, offset, pos + Chunk(pos, offset + |buf|), m);
      } else {
        KeptWider(s0, s, f, offset, pos, offset, offset + |buf|);
      }
    }
  }

  lemma LoopEnds(s: Fs, f: nat, buf: seq<nat>, offset: nat)
    ensures WriteLoop(s, f, buf, offset, offset + |buf|) == (s, Wrote(|buf|))
  {
  }

  lemma GrownRoomy(s: Fs, f: nat, size: nat, lo: nat, m: nat)
    requires f in s.files && Roomy(s, f, lo, m)
    ensures f in Grown(s, f, size).files && Roomy(Grown(s, f, size), f, lo, m)
  {
    hide ZeroWords, NthFree;
    HolesSame(s.files[f], Grown(s, f, size).files[f], lo);
  }

  /** The file_set_size of file_write. */
  lemma GrownKeeps(s: Fs, f: nat, end: nat)
    requires Inv(s) && f in s.files
    ensures var t := Grown(s, f, end);
      && Inv(t) && f in t.files && Kept(s, t, f, 0, 0)
      && t.files[f].size == if end > s.files[f].size then end else s.files[f].size
  {
    hide Inv, Kept, NBlocks, Truncated;
    KeptSame(s, f);
    if end > s.files[f].size {
      ResizeKeeps(s, f, end);
    }
  }

  lemma GrownStarts(s: Fs, f: nat, buf: seq<nat>, offset: nat)
    requires Inv(s) && f in s.files && Roomy(s, f, offset / BLKSIZE, NBlocks(offset + |buf|))
    ensures var t, end := Grown(s, f, offset + |buf|), offset + |buf|;
      && Underway(s, t, f, buf, offset, offset, NBlocks(end))
      && t.files[f].size == if end > s.files[f].size then end else s.files[f].size
  {
    hide Inv, Kept, Holds, NBlocks, Roomy, Grown;
    var t, end := Grown(s, f, offset + |buf|), offset + |buf|;
    GrownKeeps(s, f, end);
    GrownRoomy(s, f, end, offset / BLKSIZE, NBlocks(end));
    KeptAnywhere(s, t, f, offset);
    HoldsNone(t, f, buf, offset);
  }

  /** Without a stale block, file_write keeps all its promises. */
  lemma WriteRight(s: Fs, f: nat, buf: seq<nat>, offset: nat)
    requires Inv(s) && f in s.files && Roomy(s, f, offset / BLKSIZE, NBlocks(offset + |buf|))
    ensures WriteOk(s, Write(s, f, buf, offset).0, f, buf, offset, Write(s, f, buf, offset).1)
  {
    hide Inv, Kept, Holds, NBlocks, Roomy, Grown, WriteLoop;
    GrownStarts(s, f, buf, offset);
    LoopRight(s, Grown(s, f, offset + |buf|), f, buf, offset, offset, NBlocks(offset + |buf|));
  }
}
