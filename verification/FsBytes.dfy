/** Byte ranges of files (fs/fs.c): what one round of the read and write loops does. */
module FsBytes {
  import opened Wrappers
  import opened Common
  import opened FsLayout
  import opened FsBlocks

  /**
   Byte o of slot i is in an allocated block and equals the one that `bytes`, which starts
   at position `at`, has there.
   */
  ghost predicate HeldAt(s: Fs, f: nat, i: nat, o: nat, bytes: seq<nat>, at: nat)
    requires f in s.files
  {
    SlotVal(s.mem, s.files[f], i) != 0
    && at <= i * BLKSIZE + o < at + |bytes| && FileByte(s, f, i, o) == bytes[i * BLKSIZE + o - at]
  }

  /** Positions [lo, hi) of file f are in allocated blocks and hold `bytes`, which starts at position `at`. */
  ghost predicate Holds(s: Fs, f: nat, bytes: seq<nat>, at: nat, lo: nat, hi: nat)
    requires f in s.files
  {
    forall i, o :: 0 <= i < MAXBLOCKS && 0 <= o < BLKSIZE && lo <= i * BLKSIZE + o < hi ==>
      HeldAt(s, f, i, o, bytes, at)
  }

  /** The k-th lowest free block, counting from 0. */
  ghost function NthFree(free: set<nat>, k: nat, n: nat): Option<nat> {
    if k == 0 then LowestFrom(free, 0, n)
    else match LowestFrom(free, 0, n)
      case None => None
      case Some(b) => NthFree(free - {b}, k - 1, n)
  }

  /** The number of empty direct slots from lo on. */
  ghost function Holes(x: File, lo: nat): nat
    decreases NDIRECT - lo
  {
    if lo >= NDIRECT then 0
    else (if lo < |x.direct| && x.direct[lo] != 0 then 0 else 1) + Holes(x, lo + 1)
  }

  /**
   Visiting slots lo up to m of f in order adopts no stale indirect block: there is one
   already, none is needed, or the free block that is left for it after the empty direct
   slots on the way have taken theirs reads as zeros.
   */
  ghost predicate Roomy(s: Fs, f: nat, lo: nat, m: nat)
    requires f in s.files
  {
    m <= NDIRECT || s.files[f].indirect != 0 ||
    var b := NthFree(s.free, Holes(s.files[f], lo), s.n);
    b.Some? ==> ZeroWords(s.mem, b.value)
  }

  lemma RoomyClean(s: Fs, f: nat, m: nat, i: nat)
    requires f in s.files && Roomy(s, f, i, m) && i < m
    ensures CleanWalk(s, f, i)
  {
  }

  lemma IdleZero(s: Fs, t: Fs, b: nat)
    requires Idle(s, t, b) && b < |s.mem|
    ensures ZeroWords(s.mem, b) ==> ZeroWords(t.mem, b)
  {
    hide Word;
    forall j | 0 <= j < NINDIRECT ensures Entry(t.mem, b, j) == Entry(s.mem, b, j) {
    }
  }

  lemma {:induction false} NthIsFree(free: set<nat>, k: nat, n: nat)
    ensures NthFree(free, k, n).Some? ==> NthFree(free, k, n).value in free && NthFree(free, k, n).value < n
  {
    if k > 0 && LowestFrom(free, 0, n).Some? {
      NthIsFree(free - {LowestFrom(free, 0, n).value}, k - 1, n);
    }
  }

  /** Only direct slots from lo on count. */
  lemma {:induction false} HolesSame(x: File, y: File, lo: nat)
    requires |x.direct| == |y.direct| && forall i :: lo <= i < |x.direct| ==> y.direct[i] == x.direct[i]
    ensures Holes(y, lo) == Holes(x, lo)
    decreases NDIRECT - lo
  {
    if lo < NDIRECT {
      HolesSame(x, y, lo + 1);
    }
  }

  /** A slot that is filled does not count. */
  lemma RoomyNext(s: Fs, f: nat, i: nat, m: nat)
    requires f in s.files && Roomy(s, f, i, m) && i < MAXBLOCKS && SlotVal(s.mem, s.files[f], i) != 0
    ensures Roomy(s, f, i + 1, m)
  {
  }

  /** What was held in the right blocks stays so when only used blocks change. */
  lemma RoomyIdle(s: Fs, t: Fs, f: nat, lo: nat, m: nat)
    requires f in s.files && f in t.files && Roomy(s, f, lo, m) && t.n == s.n && t.free == s.free
    requires t.files[f].direct == s.files[f].direct && t.files[f].indirect == s.files[f].indirect
    requires forall b :: b in s.free ==> Idle(s, t, b) && b < |s.mem|
    ensures Roomy(t, f, lo, m)
  {
    hide ZeroWords, Idle;
    HolesSame(s.files[f], t.files[f], lo);
    NthIsFree(s.free, Holes(s.files[f], lo), s.n);
    var b := NthFree(s.free, Holes(s.files[f], lo), s.n);
    if b.Some? {
      IdleZero(s, t, b.value);
    }
  }

  /** Filling an empty direct slot takes the first of the blocks that were counted. */
  lemma RoomyTake(s: Fs, f: nat, i: nat, m: nat, b: nat)
    requires f in s.files && |s.files[f].direct| == NDIRECT && i < NDIRECT && s.files[f].direct[i] == 0 && b != 0
    requires Roomy(s, f, i, m) && Lowest(s) == Some(b)
    ensures Roomy(WithSlot(s, f, i, b, s.free - {b}), f, i, m)
  {
    hide ZeroWords;
    var t := WithSlot(s, f, i, b, s.free - {b});
    HolesSame(s.files[f], t.files[f], i + 1);
    assert Holes(s.files[f], i) == 1 + Holes(s.files[f], i + 1) && Holes(t.files[f], i) == Holes(t.files[f], i + 1);
    assert NthFree(s.free, Holes(s.files[f], i), s.n) == NthFree(t.free, Holes(t.files[f], i), t.n);
    assert t.mem == s.mem;
  }

  lemma RoomyGet(s: Fs, f: nat, i: nat, m: nat)
    requires Inv(s) && f in s.files && i < MAXBLOCKS && Roomy(s, f, i, m) && GetBlock(s, f, i).1.Got?
    ensures f in GetBlock(s, f, i).0.files && Roomy(GetBlock(s, f, i).0, f, i, m)
  {
    var t := GetBlock(s, f, i).0;
    IndirectStays(s, f, i);
    if t.files[f].indirect == 0 {
      var own :| InvBy(s, own);
      assert i < NDIRECT && |s.files[f].direct| == NDIRECT by {
        hide SlotVal, Cover, Held, Claimed, Tails;
      }
      hide Cover, Held, Claimed, Tails, Roomy, Entry;
      if s.files[f].direct[i] == 0 {
        FreshBlock(s, own, Lowest(s).value);
        RoomyTake(s, f, i, m, Lowest(s).value);
      }
    }
  }

  lemma FreeInRange(s: Fs)
    requires Inv(s)
    ensures forall b :: b in s.free ==> b < |s.mem|
  {
  }

  /** One round of either loop: file_get_block. */
  lemma GetStep(s: Fs, f: nat, i: nat, m: nat)
    requires Inv(s) && f in s.files && i < NBlocks(s.files[f].size) && i < m && Roomy(s, f, i, m)
    requires GetBlock(s, f, i).1.Got?
    ensures var t, b := GetBlock(s, f, i).0, GetBlock(s, f, i).1.b;
      Inv(t) && Kept(s, t, f, 0, 0) && f in t.files && t.files[f].size == s.files[f].size && Roomy(t, f, i, m)
      && b == SlotVal(t.mem, t.files[f], i) != 0 && b < |t.mem| && |t.mem[b]| == BLKSIZE && i < MAXBLOCKS
  {
    hide NBlocks, Inv, Kept, CleanWalk, SlotVal, Walked, Filled, Roomy, Idle;
    RoomyClean(s, f, m, i);
    GetBlockKeeps(s, f, i);
    GotInRange(s, f, i);
    RoomyGet(s, f, i, m);
    BlockSizes(s);
    var t := GetBlock(s, f, i).0;
    KeptFiles(s, t, f);
    BlockSizes(t);
  }

  lemma GotInRange(s: Fs, f: nat, i: nat)
    requires f in s.files && GetBlock(s, f, i).1.Got?
    ensures i < MAXBLOCKS
  {
  }

  lemma KeptFiles(s: Fs, t: Fs, f: nat)
    requires Kept(s, t, f, 0, 0)
    ensures t.files.Keys == s.files.Keys && t.n == s.n && |t.mem| == |s.mem|
  {
  }

  lemma IndirectStays(s: Fs, f: nat, i: nat)
    requires Inv(s) && f in s.files && GetBlock(s, f, i).1.Got?
    ensures f in GetBlock(s, f, i).0.files
    ensures s.files[f].indirect != 0 || i >= NDIRECT ==> GetBlock(s, f, i).0.files[f].indirect != 0
  {
  }

  lemma InvShaped(s: Fs)
    requires Inv(s)
    ensures Shaped(s)
  {
  }

  lemma BlockSizes(s: Fs)
    requires Inv(s)
    ensures |s.mem| == s.n && forall b :: 0 <= b < |s.mem| ==> |s.mem[b]| == BLKSIZE
  {
  }

  function Poked(s: Fs, b: nat, o: nat, data: seq<nat>): Fs
    requires b < |s.mem| && o + |data| <= |s.mem[b]|
  {
    s.(mem := s.mem[b := Splice(s.mem[b], o, data)])
  }

  /** One memmove into slot i of f at offset o. */
  lemma PokeKeeps(s: Fs, f: nat, i: nat, o: nat, data: seq<nat>, m: nat)
    requires Inv(s) && f in s.files && i < MAXBLOCKS && SlotVal(s.mem, s.files[f], i) != 0 && Roomy(s, f, i, m)
    requires SlotVal(s.mem, s.files[f], i) < |s.mem|
    requires |s.mem[SlotVal(s.mem, s.files[f], i)]| == BLKSIZE && o + |data| <= BLKSIZE
    ensures var b := SlotVal(s.mem, s.files[f], i); var t := Poked(s, b, o, data);
      && Inv(t) && Kept(s, t, f, i * BLKSIZE + o, i * BLKSIZE + o + |data|) && Roomy(t, f, i, m)
      && SlotVal(t.mem, t.files[f], i) == b
      && (forall k :: o <= k < o + |data| ==> FileByte(t, f, i, k) == data[k - o])
  {
    hide Roomy, Kept, SlotVal, Shaped, Cover, Held, Claimed, Tails;
    var own :| InvBy(s, own);
    UsedSlot(s, own, f, i);
    var b := SlotVal(s.mem, s.files[f], i);
    var t := Poked(s, b, o, data);
    DataKeeps(s, own, b, Splice(s.mem[b], o, data));
    assert InvBy(t, own);
    PokeKept(s, own, f, i, o, data);
    FreeInRange(s);
    hide InvBy, Splice;
    assert forall c :: c in t.free ==> Idle(s, t, c);
    RoomyIdle(s, t, f, i, m);
  }

  lemma PokeKept(s: Fs, own: map<nat, Owner>, f: nat, i: nat, o: nat, data: seq<nat>)
    requires InvBy(s, own) && f in s.files && i < MAXBLOCKS && SlotVal(s.mem, s.files[f], i) != 0
    requires SlotVal(s.mem, s.files[f], i) < |s.mem|
    requires |s.mem[SlotVal(s.mem, s.files[f], i)]| == BLKSIZE && o + |data| <= BLKSIZE
    ensures Kept(s, Poked(s, SlotVal(s.mem, s.files[f], i), o, data), f, i * BLKSIZE + o, i * BLKSIZE + o + |data|)
  {
  }

  // ------------------------------------------------------------- whole ranges

  /** What was held stays held when other positions change. */
  lemma HoldsKept(s: Fs, t: Fs, f: nat, bytes: seq<nat>, at: nat, lo: nat, hi: nat, clo: nat, chi: nat)
    requires f in s.files && f in t.files && Holds(s, f, bytes, at, lo, hi)
    requires Kept(s, t, f, clo, chi) && (hi <= clo || chi <= lo || chi <= clo)
    ensures Holds(t, f, bytes, at, lo, hi)
  {
    hide SlotVal, Byte;
    forall i, o | 0 <= i < MAXBLOCKS && 0 <= o < BLKSIZE && lo <= i * BLKSIZE + o < hi
      ensures HeldAt(t, f, i, o, bytes, at)
    {
      assert HeldAt(s, f, i, o, bytes, at);
    }
  }

  lemma HoldsMore(s: Fs, f: nat, bytes: seq<nat>, at: nat, i: nat, o: nat, len: nat)
    requires f in s.files && i < MAXBLOCKS && o + len <= BLKSIZE && at <= i * BLKSIZE + o
    requires i * BLKSIZE + o + len <= at + |bytes|
    requires Holds(s, f, bytes, at, at, i * BLKSIZE + o) && SlotVal(s.mem, s.files[f], i) != 0
    requires forall k :: o <= k < o + len ==> FileByte(s, f, i, k) == bytes[i * BLKSIZE + k - at]
    ensures Holds(s, f, bytes, at, at, i * BLKSIZE + o + len)
  {
  }

  lemma LowestIff(free: set<nat>, n: nat)
    requires forall c :: c in free ==> c < n
    ensures LowestFrom(free, 0, n).None? <==> free == {}
    ensures LowestFrom(free, 0, n).Some? ==> LowestFrom(free, 0, n).value in free
  {
    if free != {} {
      var c :| c in free;
    }
  }

  /** Block b, adopted as the indirect block, leaves none for entry j, or has a stale one past the disk. */
  ghost predicate Stuck(s: Fs, b: nat, j: nat) {
    if Entry(s.mem, b, j) == 0 then s.free == {b} else Entry(s.mem, b, j) >= s.n
  }

  /** With an indirect block to be adopted. */
  lemma AdoptPanics(s: Fs, own: map<nat, Owner>, f: nat, i: nat)
    requires InvBy(s, own) && f in s.files && NDIRECT <= i < MAXBLOCKS && s.files[f].indirect == 0
    ensures GetBlock(s, f, i).1.Panic? <==> s.free == {} || (Lowest(s).Some? && Stuck(s, Lowest(s).value, i - NDIRECT))
  {
    hide Held, Claimed, Tails, LowestFrom, Entry;
    LowestIff(s.free, s.n);
    if s.free != {} {
      var b := Lowest(s).value;
      FreshBlock(s, own, b);
      var t := WithIndirect(s, f, b, s.free - {b});
      LowestIff(t.free, s.n);
      if Lowest(t).Some? {
        FreshBlock(s, own, Lowest(t).value);
      }
      assert t.free == {} <==> s.free == {b};
      assert SlotVal(t.mem, t.files[f], i) == Entry(s.mem, b, i - NDIRECT);
    }
  }

  /** Without. */
  lemma SlotPanics(s: Fs, own: map<nat, Owner>, f: nat, i: nat)
    requires InvBy(s, own) && f in s.files && i < MAXBLOCKS && !NeedsIndirect(s, f, i)
    ensures GetBlock(s, f, i).1.Panic? <==> SlotVal(s.mem, s.files[f], i) == 0 && s.free == {}
  {
    hide Held, Tails, LowestFrom, SlotVal;
    LowestIff(s.free, s.n);
    if Lowest(s).Some? {
      FreshBlock(s, own, Lowest(s).value);
    }
    if SlotVal(s.mem, s.files[f], i) != 0 {
      UsedSlot(s, own, f, i);
    }
  }

  /**
   file_get_block panics exactly when a block is needed and the disk is full, or full but for
   the one that becomes the indirect block; or when that one is stale and its entry is no block.
   */
  lemma PanicIff(s: Fs, f: nat, i: nat)
    requires Inv(s) && f in s.files
    ensures GetBlock(s, f, i).1.Inval? <==> i >= MAXBLOCKS
    ensures GetBlock(s, f, i).1.Panic? <==>
      && i < MAXBLOCKS && SlotVal(s.mem, s.files[f], i) == 0
      && (s.free == {} || (NeedsIndirect(s, f, i) && Lowest(s).Some? && Stuck(s, Lowest(s).value, i - NDIRECT)))
    ensures CleanWalk(s, f, i) ==>
      (GetBlock(s, f, i).1.Panic? <==>
       && i < MAXBLOCKS && SlotVal(s.mem, s.files[f], i) == 0
       && (s.free == {} || (NeedsIndirect(s, f, i) && Lowest(s).Some? && s.free == {Lowest(s).value})))
  {
    var own :| InvBy(s, own);
    hide InvBy, Inv, Entry, Walked, Filled;
    if i < MAXBLOCKS {
      if NeedsIndirect(s, f, i) {
        AdoptPanics(s, own, f, i);
      } else {
        SlotPanics(s, own, f, i);
      }
    }
  }

  /** A disk that is full when the first block of a file is wanted. */
  lemma FullDisk() returns (s: Fs, f: nat, i: nat)
    ensures Inv(s) && f in s.files && i < NBlocks(s.files[f].size) && CleanWalk(s, f, i) && GetBlock(s, f, i).1.Panic?
  {
    var zero: Block := seq(BLKSIZE, k => 0);
    f, i := 0, 0;
    s := Fs(3, 3, {}, [zero, zero, zero], map[f := File(BLKSIZE, seq(NDIRECT, k => 0), 0)]);
    assert InvBy(s, map[]);
    PanicIff(s, f, i);
  }
}
