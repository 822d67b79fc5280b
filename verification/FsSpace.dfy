/**
 How many blocks file_write and file_read (fs/fs.c) take: one for every slot in the range that
 has none, and one for the indirect block.  They panic exactly when there are not as many.
 */
module FsSpace {
  import opened Wrappers
  import opened Common
  import opened FsLayout
  import opened FsBlocks
  import opened FsBytes
  import opened FsWrite
  import opened FsRead
  import opened FsStale

  /** The blocks needed to visit slots lo up to hi of f. */
  ghost function Need(s: Fs, f: nat, lo: nat, hi: nat): nat
    requires f in s.files
  {
    |Gaps(s, f, lo, hi)| + if lo < hi && hi > NDIRECT && s.files[f].indirect == 0 then 1 else 0
  }

  /** The blocks that file_get_block takes for slot i. */
  ghost function Takes(s: Fs, f: nat, i: nat): nat
    requires f in s.files
  {
    (if SlotVal(s.mem, s.files[f], i) == 0 then 1 else 0) + if NeedsIndirect(s, f, i) then 1 else 0
  }

  /** Only slot i changes, and it has a block afterwards. */
  ghost predicate OneFilled(s: Fs, t: Fs, f: nat, i: nat) {
    && f in s.files && f in t.files && SlotVal(t.mem, t.files[f], i) != 0
    && (forall k :: 0 <= k < MAXBLOCKS && k != i ==> SlotVal(t.mem, t.files[f], k) == SlotVal(s.mem, s.files[f], k))
    && (t.files[f].indirect == 0 <==> s.files[f].indirect == 0 && i < NDIRECT)
  }

  lemma FilledOne(s: Fs, f: nat, i: nat)
    requires f in s.files && Shaped(s) && i < MAXBLOCKS && !NeedsIndirect(s, f, i) && Filled(s, f, i).1.Got?
    requires i >= NDIRECT ==> s.files[f].indirect < s.n
    ensures OneFilled(s, Filled(s, f, i).0, f, i)
    ensures Filled(s, f, i).0.free <= s.free
    ensures |Filled(s, f, i).0.free| + (if SlotVal(s.mem, s.files[f], i) == 0 then 1 else 0) == |s.free|
  {
    hide Word, SetWord, LowestFrom;
    if SlotVal(s.mem, s.files[f], i) == 0 {
      var c := Lowest(s).value;
      LowestIsFree(s);
      var t := WithSlot(s, f, i, c, s.free - {c});
      if i >= NDIRECT {
        forall k | 0 <= k < NINDIRECT
          ensures Entry(t.mem, t.files[f].indirect, k) ==
            if k == i - NDIRECT then c else Entry(s.mem, s.files[f].indirect, k)
        {
          EntryAfter(s.mem, s.files[f].indirect, i - NDIRECT, c, s.files[f].indirect, k);
        }
      }
      hide Entry;
    }
  }

  /** A clean block adopted as the indirect block fills no slot. */
  lemma AdoptedClean(s: Fs, f: nat, b: nat)
    requires f in s.files && s.files[f].indirect == 0 && ZeroWords(s.mem, b)
    ensures var t := WithIndirect(s, f, b, s.free - {b});
      forall k :: 0 <= k < MAXBLOCKS ==> SlotVal(t.mem, t.files[f], k) == SlotVal(s.mem, s.files[f], k)
  {
    hide Entry;
  }

  /** With an indirect block to be adopted: one block for it and one for the slot. */
  lemma AdoptTakes(s: Fs, f: nat, i: nat)
    requires f in s.files && Shaped(s) && NDIRECT <= i < MAXBLOCKS && s.files[f].indirect == 0
    requires CleanWalk(s, f, i) && GetBlock(s, f, i).1.Got?
    ensures var t := GetBlock(s, f, i).0; OneFilled(s, t, f, i) && |t.free| + 2 == |s.free|
  {
    hide Filled, ZeroWords, SlotVal, LowestFrom;
    var b := Lowest(s).value;
    LowestIsFree(s);
    AdoptedClean(s, f, b);
    NoSlotBefore(s, f, i);
    FilledOne(WithIndirect(s, f, b, s.free - {b}), f, i);
  }

  /** What file_get_block takes. */
  lemma GetTakes(s: Fs, f: nat, i: nat)
    requires Inv(s) && f in s.files && CleanWalk(s, f, i) && GetBlock(s, f, i).1.Got?
    ensures var t := GetBlock(s, f, i).0;
      i < MAXBLOCKS && OneFilled(s, t, f, i) && |t.free| + Takes(s, f, i) == |s.free|
  {
    hide InvBy, Shaped, SlotVal, Filled, CleanWalk, OneFilled;
    var own :| InvBy(s, own);
    GotInRange(s, f, i);
    IndirectIs(s, own, f);
    InvShaped(s);
    if NeedsIndirect(s, f, i) {
      AdoptTakes(s, f, i);
      NoSlotBefore(s, f, i);
    } else {
      FilledOne(s, f, i);
    }
  }

  lemma IndirectIs(s: Fs, own: map<nat, Owner>, f: nat)
    requires InvBy(s, own) && f in s.files
    ensures s.files[f].indirect < s.n || s.files[f].indirect == 0
  {
  }

  /** Taking one slot's blocks leaves that many less to take. */
  lemma NeedLess(s: Fs, t: Fs, f: nat, i: nat, hi: nat)
    requires OneFilled(s, t, f, i) && i < hi <= MAXBLOCKS
    ensures Need(s, f, i, hi) == Need(t, f, i + 1, hi) + Takes(s, f, i)
  {
    hide SlotVal;
    var gap := SlotVal(s.mem, s.files[f], i) == 0;
    assert Gaps(s, f, i, hi) == Gaps(t, f, i + 1, hi) + if gap then {i} else {};
  }

  /** file_get_block panics exactly when there are fewer. */
  lemma PanicTakes(s: Fs, f: nat, i: nat)
    requires Inv(s) && f in s.files && CleanWalk(s, f, i)
    ensures GetBlock(s, f, i).1.Panic? <==> i < MAXBLOCKS && Takes(s, f, i) > |s.free|
  {
    hide Inv, GetBlock, CleanWalk;
    PanicIff(s, f, i);
    if NeedsIndirect(s, f, i) {
      NoSlotBefore(s, f, i);
    }
    hide SlotVal;
    if |s.free| == 1 {
      OneFree(s);
    }
  }

  lemma OneFree(s: Fs)
    requires Inv(s) && |s.free| == 1
    ensures Lowest(s).Some? && s.free == {Lowest(s).value}
  {
    var c :| c in s.free;
    assert s.free == {c} by {
      if d :| d in s.free && d != c {
        assert {c, d} <= s.free && |{c, d}| == 2;
        Subset({c, d}, s.free);
      }
    }
    FreeInRange(s);
    BlockSizes(s);
    LowestIff(s.free, s.n);
  }

  lemma {:induction false} Subset(a: set<nat>, b: set<nat>)
    requires a <= b
    ensures |a| <= |b|
  {
    if a != {} {
      var x :| x in a;
      Subset(a - {x}, b - {x});
    }
  }

  /** A memmove into a block of the file changes no slot. */
  lemma PokeSlots(s: Fs, f: nat, i: nat, o: nat, data: seq<nat>)
    requires Inv(s) && f in s.files && i < MAXBLOCKS && SlotVal(s.mem, s.files[f], i) != 0
    requires Storable(s, SlotVal(s.mem, s.files[f], i), o, |data|)
    ensures var t := Poked(s, SlotVal(s.mem, s.files[f], i), o, data);
      && t.files == s.files && t.free == s.free
      && forall k :: 0 <= k < MAXBLOCKS ==> SlotVal(t.mem, t.files[f], k) == SlotVal(s.mem, s.files[f], k)
  {
    var own :| InvBy(s, own);
    UsedSlot(s, own, f, i);
    IndirectOwned(s, own, f);
    hide Splice, Word, InvBy;
  }

  lemma IndirectOwned(s: Fs, own: map<nat, Owner>, f: nat)
    requires InvBy(s, own) && f in s.files
    ensures s.files[f].indirect != 0 ==> s.files[f].indirect in own && own[s.files[f].indirect] == Indirect(f)
  {
  }

  lemma NeedSame(s: Fs, t: Fs, f: nat, lo: nat, hi: nat)
    requires f in s.files && f in t.files && hi <= MAXBLOCKS && t.files[f].indirect == s.files[f].indirect
    requires forall k :: 0 <= k < MAXBLOCKS ==> SlotVal(t.mem, t.files[f], k) == SlotVal(s.mem, s.files[f], k)
    ensures Need(t, f, lo, hi) == Need(s, f, lo, hi)
  {
    hide SlotVal;
    assert Gaps(t, f, lo, hi) == Gaps(s, f, lo, hi);
  }

  /** One round of file_write. */
  lemma RoundNeeds(s: Fs, f: nat, buf: seq<nat>, offset: nat, pos: nat, hi: nat)
    requires Inv(s) && f in s.files && offset <= pos < offset + |buf| && CleanWalk(s, f, pos / BLKSIZE)
    requires GetBlock(s, f, pos / BLKSIZE).1.Got? && Inv(GetBlock(s, f, pos / BLKSIZE).0)
    requires f in GetBlock(s, f, pos / BLKSIZE).0.files && GetBlock(s, f, pos / BLKSIZE).1.b ==
      SlotVal(GetBlock(s, f, pos / BLKSIZE).0.mem, GetBlock(s, f, pos / BLKSIZE).0.files[f], pos / BLKSIZE)
    requires Storable(GetBlock(s, f, pos / BLKSIZE).0, GetBlock(s, f, pos / BLKSIZE).1.b,
                      pos % BLKSIZE, Chunk(pos, offset + |buf|))
    requires pos / BLKSIZE < hi <= MAXBLOCKS
    ensures var u := Round(s, f, buf, offset, pos);
      && f in u.files && |u.free| + Takes(s, f, pos / BLKSIZE) == |s.free|
      && Need(s, f, pos / BLKSIZE, hi) == Need(u, f, pos / BLKSIZE + 1, hi) + Takes(s, f, pos / BLKSIZE)
  {
    hide Inv, GetBlock, CleanWalk, SlotVal, Need, Takes, Chunk, Splice;
    var i := pos / BLKSIZE;
    var t := GetBlock(s, f, i).0;
    GetTakes(s, f, i);
    NeedLess(s, t, f, i, hi);
    PokeSlots(t, f, i, pos % BLKSIZE, buf[pos - offset..pos - offset + Chunk(pos, offset + |buf|)]);
    NeedSame(t, Round(s, f, buf, offset, pos), f, i + 1, hi);
  }

  lemma NeedNone(s: Fs, f: nat, lo: nat, hi: nat)
    requires f in s.files && hi <= lo
    ensures Need(s, f, lo, hi) == 0
  {
    assert Gaps(s, f, lo, hi) == {};
  }

  lemma NeedAtLeast(s: Fs, f: nat, i: nat, hi: nat)
    requires f in s.files && i < hi <= MAXBLOCKS
    ensures Need(s, f, i, hi) >= Takes(s, f, i)
  {
    hide SlotVal;
    if SlotVal(s.mem, s.files[f], i) == 0 {
      assert i in Gaps(s, f, i, hi);
      Subset({i}, Gaps(s, f, i, hi));
    }
  }

  /** The end of the range in slots, or of the slots. */
  function LastSlot(end: nat): nat {
    if NBlocks(end) < MAXBLOCKS then NBlocks(end) else MAXBLOCKS
  }

  lemma UnderwayFacts(s0: Fs, s: Fs, f: nat, buf: seq<nat>, offset: nat, pos: nat, m: nat)
    requires Underway(s0, s, f, buf, offset, pos, m) && pos < offset + |buf|
    ensures Inv(s) && CleanWalk(s, f, pos / BLKSIZE) && pos / BLKSIZE < NBlocks(offset + |buf|)
    ensures GetBlock(s, f, pos / BLKSIZE).1.Got? ==>
      var (t, r) := GetBlock(s, f, pos / BLKSIZE);
      Inv(t) && f in t.files && r.b == SlotVal(t.mem, t.files[f], pos / BLKSIZE)
  {
    hide Inv, Roomy, Kept, Holds, CleanWalk, NBlocks, GetBlock, SlotVal;
    BlockOfPosition(pos, offset + |buf|, s.files[f].size);
    RoomyClean(s, f, m, pos / BLKSIZE);
    if GetBlock(s, f, pos / BLKSIZE).1.Got? {
      GetStep(s, f, pos / BLKSIZE, m);
    }
  }

  lemma {:induction false} WriteNeeds(s0: Fs, s: Fs, f: nat, buf: seq<nat>, offset: nat, pos: nat, m: nat)
    requires Underway(s0, s, f, buf, offset, pos, m) && pos < offset + |buf|
    ensures WriteLoop(s, f, buf, offset, pos).1.WritePanic? <==>
      Need(s, f, pos / BLKSIZE, LastSlot(offset + |buf|)) > |s.free|
    decreases offset + |buf| - pos
  {
    hide Inv, Roomy, Kept, Holds, CleanWalk, NBlocks, GetBlock, SlotVal, Need, Takes, WriteLoop, Round, Chunk, Storable;
    var i, end := pos / BLKSIZE, offset + |buf|;
    UnderwayFacts(s0, s, f, buf, offset, pos, m);
    GetBlockRange(s, f, i);
    LoopUnfolds(s, f, buf, offset, pos);
    PanicTakes(s, f, i);
    var hi := LastSlot(end);
    if i >= MAXBLOCKS {
      NeedNone(s, f, i, hi);
    } else if GetBlock(s, f, i).1.Panic? {
      NeedAtLeast(s, f, i, hi);
    } else {
      RoundRight(s0, s, f, buf, offset, pos, m);
      RoundNeeds(s, f, buf, offset, pos, hi);
      NextAt(pos, end);
      var u, pos1 := Round(s, f, buf, offset, pos), pos + Chunk(pos, end);
      if pos1 < end {
        WriteNeeds(s0, u, f, buf, offset, pos1, m);
      } else {
        LoopEnds(u, f, buf, offset);
        NeedNone(u, f, i + 1, hi);
      }
    }
  }

  lemma GrownNeeds(s: Fs, f: nat, end: nat, lo: nat, hi: nat)
    requires f in s.files && hi <= MAXBLOCKS
    ensures var t := Grown(s, f, end); f in t.files && t.free == s.free && Need(t, f, lo, hi) == Need(s, f, lo, hi)
  {
    hide Entry;
    var t := Grown(s, f, end);
    NeedSame(s, t, f, lo, hi);
  }

  /** Without a stale block, file_write panics exactly when the disk has fewer free blocks than it needs. */
  lemma WritePanicsIff(s: Fs, f: nat, buf: seq<nat>, offset: nat)
    requires Inv(s) && f in s.files && Roomy(s, f, offset / BLKSIZE, NBlocks(offset + |buf|))
    ensures Write(s, f, buf, offset).1.WritePanic? <==>
      buf != [] && Need(s, f, offset / BLKSIZE, LastSlot(offset + |buf|)) > |s.free|
  {
    hide Inv, Roomy, NBlocks, WriteLoop, Grown, Need, Underway;
    var t := Grown(s, f, offset + |buf|);
    GrownStarts(s, f, buf, offset);
    GrownNeeds(s, f, offset + |buf|, offset / BLKSIZE, LastSlot(offset + |buf|));
    if buf == [] {
      LoopEnds(t, f, buf, offset);
    } else {
      WriteNeeds(s, t, f, buf, offset, offset, NBlocks(offset + |buf|));
    }
  }

  lemma {:induction false} ReadNeeds(s0: Fs, s: Fs, f: nat, offset: nat, end: nat, out: seq<nat>)
    requires Reading(s0, s, f, offset, end, out) && offset + |out| < end
    ensures ReadLoop(s, f, offset, end, out).1.ReadPanic? <==>
      Need(s, f, (offset + |out|) / BLKSIZE, LastSlot(end)) > |s.free|
    decreases end - |out|
  {
    hide Inv, Roomy, Kept, Holds, CleanWalk, NBlocks, GetBlock, SlotVal, Need, Takes, ReadLoop, Longer, Chunk, Storable;
    var pos := offset + |out|;
    var i, hi := pos / BLKSIZE, LastSlot(end);
    BlockOfPosition(pos, end, s.files[f].size);
    RoomyClean(s, f, NBlocks(end), i);
    GetBlockRange(s, f, i);
    ReadStops(s, f, offset, end, out, pos);
    PanicTakes(s, f, i);
    if i >= MAXBLOCKS {
      NeedNone(s, f, i, hi);
    } else if GetBlock(s, f, i).1.Panic? {
      NeedAtLeast(s, f, i, hi);
    } else {
      ReadRound(s0, s, f, offset, end, out);
      ReadGoesOn(s, f, offset, end, out);
      GetTakes(s, f, i);
      var t, out1 := GetBlock(s, f, i).0, Longer(s, f, offset, end, out);
      NeedLess(s, t, f, i, hi);
      NextAt(pos, end);
      if offset + |out1| < end {
        ReadNeeds(s0, t, f, offset, end, out1);
      } else {
        ReadEnds(t, f, offset, end, out1);
        NeedNone(t, f, i + 1, hi);
      }
    }
  }

  /** And so does file_read, which gives holes blocks. */
  lemma ReadPanicsIff(s: Fs, f: nat, count: nat, offset: nat)
    requires Inv(s) && f in s.files
    requires Roomy(s, f, offset / BLKSIZE, NBlocks(offset + ReadLength(s.files[f].size, count, offset)))
    ensures var n := ReadLength(s.files[f].size, count, offset);
      ReadFile(s, f, count, offset).1.ReadPanic? <==>
      n > 0 && Need(s, f, offset / BLKSIZE, LastSlot(offset + n)) > |s.free|
  {
    hide Inv, Roomy, NBlocks, ReadLoop, Need, Reading;
    var end := offset + ReadLength(s.files[f].size, count, offset);
    ReadStarts(s, f, count, offset);
    if end == offset {
      ReadEnds(s, f, offset, end, []);
    } else {
      ReadNeeds(s, s, f, offset, end, []);
    }
  }
}
