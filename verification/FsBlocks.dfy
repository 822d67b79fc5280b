/**
 What file_get_block and truncation do to the whole file system (fs/fs.c), on values:
 which blocks they take or give back, and which bytes they keep.
 */
module FsBlocks {
  import opened Wrappers
  import opened Common
  import opened FsLayout

  // ----------------------------------------------------------- file_get_block

  /** Panic: diskaddr was given a bad block number, which is also what a full disk leads to. */
  datatype Got = Got(b: nat) | Inval | Panic

  predicate NeedsIndirect(s: Fs, f: nat, i: nat)
    requires f in s.files
  {
    i >= NDIRECT && s.files[f].indirect == 0
  }

  /** After file_block_walk with alloc set; None if it panics. */
  function Walked(s: Fs, f: nat, i: nat): Option<Fs>
    requires f in s.files
  {
    if i < NDIRECT then Some(s)
    else if s.files[f].indirect != 0 then (if s.files[f].indirect < s.n then Some(s) else None)
    else match Lowest(s)
      case None => None
      case Some(b) => if b == 0 then None else Some(WithIndirect(s, f, b, s.free - {b}))
  }

  /** The second half of file_get_block: the slot is there, perhaps empty. */
  function Filled(s: Fs, f: nat, i: nat): (Fs, Got)
    requires f in s.files
  {
    var v := SlotVal(s.mem, s.files[f], i);
    if v != 0 then (s, if v < s.n then Got(v) else Panic)
    else match Lowest(s)
      case None => (s, Panic)
      case Some(b) => if b == 0 then (s, Panic) else (WithSlot(s, f, i, b, s.free - {b}), Got(b))
  }

  function GetBlock(s: Fs, f: nat, i: nat): (Fs, Got)
    requires f in s.files
  {
    if i >= MAXBLOCKS then (s, Inval)
    else match Walked(s, f, i)
      case None => (s, Panic)
      case Some(t) => if f in t.files then Filled(t, f, i) else (t, Panic)
  }

  /** The block that would become the indirect block reads as all zeros. */
  ghost predicate CleanWalk(s: Fs, f: nat, i: nat)
    requires f in s.files
  {
    NeedsIndirect(s, f, i) ==> Lowest(s).Some? ==> ZeroWords(s.mem, Lowest(s).value)
  }

  // ---------------------------------------------------------------- same bytes

  /**
   All blocks that were in some file are still in the same slot, and outside
   positions [lo, hi) of file f they hold the same bytes.
   */
  ghost predicate Kept(s: Fs, t: Fs, f: nat, lo: nat, hi: nat) {
    && t.n == s.n && t.first == s.first && t.files.Keys == s.files.Keys && |t.mem| == |s.mem|
    && (forall g :: g in s.files && g != f ==> t.files[g] == s.files[g])
    && (forall g, i :: g in s.files && 0 <= i < MAXBLOCKS && SlotVal(s.mem, s.files[g], i) != 0 ==>
          SlotVal(t.mem, t.files[g], i) == SlotVal(s.mem, s.files[g], i))
    && (forall g, i, o ::
          g in s.files && 0 <= i < MAXBLOCKS && 0 <= o < BLKSIZE && SlotVal(s.mem, s.files[g], i) != 0 ==>
          g != f || i * BLKSIZE + o < lo || hi <= i * BLKSIZE + o ==>
          Byte(t, SlotVal(s.mem, s.files[g], i), o) == Byte(s, SlotVal(s.mem, s.files[g], i), o))
  }

  function Byte(s: Fs, b: nat, o: nat): nat {
    if b < |s.mem| && o < |s.mem[b]| then s.mem[b][o] else 0
  }

  /** Byte o of slot i of a file. */
  function FileByte(s: Fs, f: nat, i: nat, o: nat): nat
    requires f in s.files
  {
    Byte(s, SlotVal(s.mem, s.files[f], i), o)
  }

  lemma KeptTrans(s: Fs, t: Fs, u: Fs, f: nat, lo: nat, hi: nat)
    requires Kept(s, t, f, lo, hi) && Kept(t, u, f, lo, hi)
    ensures Kept(s, u, f, lo, hi)
  {
  }

  lemma KeptWider(s: Fs, t: Fs, f: nat, lo: nat, hi: nat, lo1: nat, hi1: nat)
    requires Kept(s, t, f, lo, hi) && lo1 <= lo && hi <= hi1
    ensures Kept(s, t, f, lo1, hi1)
  {
  }

  lemma IndirectKept(s: Fs, own: map<nat, Owner>, f: nat, b: nat)
    requires InvBy(s, own) && f in s.files && s.files[f].indirect == 0
    ensures Kept(s, WithIndirect(s, f, b, s.free - {b}), f, 0, 0)
  {
  }

  lemma SlotKept(s: Fs, own: map<nat, Owner>, f: nat, i: nat, b: nat)
    requires InvBy(s, own) && f in s.files && i < MAXBLOCKS && (i < NDIRECT || s.files[f].indirect != 0)
    requires b in s.free && SlotVal(s.mem, s.files[f], i) == 0
    ensures Kept(s, WithSlot(s, f, i, b, s.free - {b}), f, 0, 0)
    ensures SlotVal(WithSlot(s, f, i, b, s.free - {b}).mem, WithSlot(s, f, i, b, s.free - {b}).files[f], i) == b
  {
    FreshBlock(s, own, b);
    SlotChange(s, own, f, i, b);
    var t := WithSlot(s, f, i, b, s.free - {b});
    forall g, j | g in s.files && 0 <= j < MAXBLOCKS && SlotVal(s.mem, s.files[g], j) != 0
      ensures i >= NDIRECT ==> SlotVal(s.mem, s.files[g], j) != s.files[f].indirect
    {
      hide SlotVal, Held, Tails, Cover;
    }
    hide InvBy, SlotVal, SetWord;
  }

  // ----------------------------------------------- when file_get_block is right

  lemma FilledKeeps(s: Fs, f: nat, i: nat)
    requires Inv(s) && f in s.files && i < MAXBLOCKS && i < NBlocks(s.files[f].size) && !NeedsIndirect(s, f, i)
    requires Filled(s, f, i).1.Got?
    ensures var t, r := Filled(s, f, i).0, Filled(s, f, i).1;
      Inv(t) && Kept(s, t, f, 0, 0) && t.files[f].size == s.files[f].size
      && r.b == SlotVal(t.mem, t.files[f], i) != 0 && r.b < s.n
      && (s.files[f].indirect != 0 ==> t.files[f].indirect == s.files[f].indirect)
      && t.free <= s.free && (forall b :: b in t.free ==> Idle(s, t, b))
  {
    hide Shaped, Cover, Held, Claimed, Tails, SlotVal;
    var own :| InvBy(s, own);
    var v := SlotVal(s.mem, s.files[f], i);
    if v != 0 {
      KeptSame(s, f);
    } else {
      var b := Lowest(s).value;
      FreshBlock(s, own, b);
      TakeSlotKeeps(s, own, f, i, b);
      SlotKept(s, own, f, i, b);
      SlotIdle(s, own, f, i, b);
      hide Kept, InvBy, SlotMem, Idle;
      assert Inv(WithSlot(s, f, i, b, s.free - {b}));
    }
  }

  /** Block b holds what it held. */
  ghost predicate Idle(s: Fs, t: Fs, b: nat) {
    b < |s.mem| ==> b < |t.mem| && t.mem[b] == s.mem[b]
  }

  lemma KeptSame(s: Fs, f: nat)
    ensures Kept(s, s, f, 0, 0)
  {
  }

  lemma SlotIdle(s: Fs, own: map<nat, Owner>, f: nat, i: nat, v: nat)
    requires InvBy(s, own) && f in s.files && i < MAXBLOCKS && (i < NDIRECT || s.files[f].indirect != 0)
    ensures forall b :: b in s.free ==> Idle(s, WithSlot(s, f, i, v, s.free - {v}), b)
  {
  }

  /** file_get_block keeps conservation and every byte of every file, if the walk is clean. */
  lemma GetBlockKeeps(s: Fs, f: nat, i: nat)
    requires Inv(s) && f in s.files && i < NBlocks(s.files[f].size) && CleanWalk(s, f, i) && GetBlock(s, f, i).1.Got?
    ensures var t, r := GetBlock(s, f, i).0, GetBlock(s, f, i).1;
      Inv(t) && Kept(s, t, f, 0, 0) && t.files[f].size == s.files[f].size
      && r.b == SlotVal(t.mem, t.files[f], i) != 0 && r.b < s.n
      && (i >= NDIRECT || s.files[f].indirect != 0 ==> t.files[f].indirect != 0)
      && t.free <= s.free && (forall b :: b in t.free ==> Idle(s, t, b))
  {
    hide Shaped, Cover, Held, Claimed, Tails, SlotVal;
    var own :| InvBy(s, own);
    if NeedsIndirect(s, f, i) {
      var b := Lowest(s).value;
      FreshBlock(s, own, b);
      TakeIndirectKeeps(s, own, f, b);
      IndirectKept(s, own, f, b);
      var t := WithIndirect(s, f, b, s.free - {b});
      hide Kept, InvBy, Filled, ZeroWords;
      assert Inv(t);
      FilledKeeps(t, f, i);
      KeptTrans(s, t, Filled(t, f, i).0, f, 0, 0);
    } else {
      hide Kept, InvBy, Filled, ZeroWords;
      FilledKeeps(s, f, i);
    }
  }

  /** Every reference of `s` is still there in `t`. */
  ghost predicate Refers(s: Fs, t: Fs) {
    t.first == s.first && t.n == s.n && t.files.Keys == s.files.Keys
    && forall o :: PointsAt(s.mem, s.files, o) != 0 ==> PointsAt(t.mem, t.files, o) == PointsAt(s.mem, s.files, o)
  }

  lemma IndirectRefers(s: Fs, f: nat, b: nat)
    requires f in s.files && s.files[f].indirect == 0
    ensures Refers(s, WithIndirect(s, f, b, s.free - {b}))
  {
  }

  lemma SlotRefers(s: Fs, f: nat, i: nat, v: nat)
    requires f in s.files && i < MAXBLOCKS && SlotVal(s.mem, s.files[f], i) == 0
    requires OneSlot(s.mem, s.files, WithSlot(s, f, i, v, s.free).mem, WithSlot(s, f, i, v, s.free).files, f, i, v)
    ensures Refers(s, WithSlot(s, f, i, v, s.free - {v}))
  {
  }

  lemma AdoptedApart(s: Fs, own: map<nat, Owner>, f: nat, b: nat)
    requires InvBy(s, own) && f in s.files && b in s.free
    ensures Apart(s.mem, WithIndirect(s, f, b, s.free - {b}).files)
  {
  }

  /** The state after adopting b and filling slot i; no references are lost, and entry j of b is still there. */
  lemma AdoptedSlots(s: Fs, own: map<nat, Owner>, f: nat, i: nat, b: nat, j: nat)
    requires InvBy(s, own) && f in s.files && NDIRECT <= i < MAXBLOCKS && s.files[f].indirect == 0 && b in s.free
    requires j < NINDIRECT && Entry(s.mem, b, j) != 0
    ensures var t := WithIndirect(s, f, b, s.free - {b});
      var u := Filled(t, f, i).0;
      && Refers(s, u) && u.files[f].indirect == b
      && SlotVal(u.mem, u.files[f], NDIRECT + j) == Entry(s.mem, b, j)
      && (u.free == s.free - {b} || (NDIRECT + j != i && SlotVal(u.mem, u.files[f], i) != 0
            && u.free == s.free - {b} - {SlotVal(u.mem, u.files[f], i)}))
  {
    FreshBlock(s, own, b);
    IndirectRefers(s, f, b);
    AdoptedApart(s, own, f, b);
    var t := WithIndirect(s, f, b, s.free - {b});
    assert SlotVal(t.mem, t.files[f], NDIRECT + j) == Entry(s.mem, b, j);
    if SlotVal(t.mem, t.files[f], i) == 0 && Lowest(t).Some? {
      var c := Lowest(t).value;
      FreshBlock(s, own, c);
      hide Cover, Held, Claimed, Tails, Apart;
      SlotAfter(t.mem, t.files, f, i, c);
      hide SlotVal, SlotMem, Refers;
      SlotRefers(t, f, i, c);
      RefersTrans(s, t, WithSlot(t, f, i, c, t.free - {c}));
    }
  }

  lemma RefersTrans(s: Fs, t: Fs, u: Fs)
    requires Refers(s, t) && Refers(t, u)
    ensures Refers(s, u)
  {
  }

  lemma OwnersAgree(s: Fs, own: map<nat, Owner>, t: Fs, own1: map<nat, Owner>, c: nat)
    requires InvBy(s, own) && InvBy(t, own1) && Refers(s, t) && c in own
    ensures c in own1 && own1[c] == own[c] && PointsAt(s.mem, s.files, own[c]) == c
  {
  }

  /** Adopting a block with a nonzero word as the indirect block leaves no consistent ownership. */
  lemma DirtyBreaks(s: Fs, own: map<nat, Owner>, f: nat, i: nat, b: nat, j: nat, own1: map<nat, Owner>)
    requires InvBy(s, own) && f in s.files && NDIRECT <= i < MAXBLOCKS && s.files[f].indirect == 0 && b in s.free
    requires j < NINDIRECT && Entry(s.mem, b, j) != 0
    ensures !InvBy(Filled(WithIndirect(s, f, b, s.free - {b}), f, i).0, own1)
  {
    AdoptedSlots(s, own, f, i, b, j);
    var u := Filled(WithIndirect(s, f, b, s.free - {b}), f, i).0;
    var w := Entry(s.mem, b, j);
    if InvBy(u, own1) {
      UsedSlot(u, own1, f, NDIRECT + j);
      if w in own {
        OwnersAgree(s, own, u, own1, w);
      } else {
        hide Filled, SlotVal, Held, Tails, Refers;
        assert w in s.free;
        if w != b {
          UsedSlot(u, own1, f, i);
        }
      }
    }
  }

  /**
   file_get_block keeps block conservation if and only if the block number is below the
   file's size and no stale block becomes an indirect block: file_block_walk does not clear
   the block it allocates.
   */
  lemma GetBlockIff(s: Fs, f: nat, i: nat)
    requires Inv(s) && f in s.files && GetBlock(s, f, i).1.Got?
    ensures Inv(GetBlock(s, f, i).0) <==> i < NBlocks(s.files[f].size) && CleanWalk(s, f, i)
  {
    if CleanWalk(s, f, i) {
      if i < NBlocks(s.files[f].size) {
        GetBlockKeeps(s, f, i);
      } else {
        PastTheSize(s, f, i);
      }
    } else {
      var own :| InvBy(s, own);
      var b := Lowest(s).value;
      var j :| 0 <= j < NINDIRECT && Entry(s.mem, b, j) != 0;
      hide Entry, InvBy, Filled;
      forall own1 ensures !InvBy(GetBlock(s, f, i).0, own1) {
        DirtyBreaks(s, own, f, i, b, j, own1);
      }
    }
  }

  /** Past the size there is no block yet, so file_get_block adds one where there must be none. */
  lemma PastTheSize(s: Fs, f: nat, i: nat)
    requires Inv(s) && f in s.files && i >= NBlocks(s.files[f].size) && GetBlock(s, f, i).1.Got? && CleanWalk(s, f, i)
    ensures !Inv(GetBlock(s, f, i).0)
  {
    var own :| InvBy(s, own);
    assert SlotVal(s.mem, s.files[f], i) == 0;
    var t := GetBlock(s, f, i).0;
    GotSlot(s, own, f, i);
    hide InvBy, SlotVal, GetBlock;
    forall own1 ensures !InvBy(t, own1) {
      NoTail(t, own1, f, i);
    }
  }

  lemma GotSlot(s: Fs, own: map<nat, Owner>, f: nat, i: nat)
    requires InvBy(s, own) && f in s.files && GetBlock(s, f, i).1.Got? && CleanWalk(s, f, i)
    requires SlotVal(s.mem, s.files[f], i) == 0
    ensures var t := GetBlock(s, f, i).0;
      i < MAXBLOCKS && f in t.files && t.files[f].size == s.files[f].size && SlotVal(t.mem, t.files[f], i) != 0
  {
    hide Held, Claimed, Tails, Word, SetWord;
    var t := Walked(s, f, i).value;
    var b := Lowest(t).value;
    if i >= NDIRECT {
      EntryAfter(t.mem, t.files[f].indirect, i - NDIRECT, b, t.files[f].indirect, i - NDIRECT);
    }
  }

  lemma NoTail(t: Fs, own: map<nat, Owner>, f: nat, i: nat)
    requires f in t.files && NBlocks(t.files[f].size) <= i < MAXBLOCKS && SlotVal(t.mem, t.files[f], i) != 0
    ensures !InvBy(t, own)
  {
    hide SlotVal, Shaped, Cover, Held, Claimed;
  }

  // -------------------------------------------------------------- truncation

  /** file_free_block. */
  function FreeSlot(s: Fs, f: nat, i: nat): Fs
    requires f in s.files
  {
    var v := SlotVal(s.mem, s.files[f], i);
    if i < MAXBLOCKS && v != 0 then WithSlot(s, f, i, 0, s.free + {v}) else s
  }

  function FreeSlots(s: Fs, f: nat, lo: nat, hi: nat): Fs
    requires f in s.files
    decreases hi - lo
  {
    if lo < hi then FreeSlots(FreeSlot(s, f, lo), f, lo + 1, hi) else s
  }

  function FreeIndirect(s: Fs, f: nat, blocks: nat): Fs
    requires f in s.files
  {
    if blocks <= NDIRECT && s.files[f].indirect != 0
    then WithIndirect(s, f, 0, s.free + {s.files[f].indirect})
    else s
  }

  /** The blocks in slots lo up to hi. */
  ghost function BlocksIn(s: Fs, f: nat, lo: nat, hi: nat): set<nat>
    requires f in s.files
  {
    set i | lo <= i < hi && i < MAXBLOCKS && SlotVal(s.mem, s.files[f], i) != 0 :: SlotVal(s.mem, s.files[f], i)
  }

  /** Slots lo up to hi of f are cleared, and nothing else that a file can reach changed. */
  ghost predicate Cleared(s: Fs, t: Fs, f: nat, lo: nat, hi: nat) {
    && f in s.files && t.n == s.n && t.first == s.first && t.files.Keys == s.files.Keys && |t.mem| == |s.mem|
    && (forall g :: g in s.files ==> t.files[g].indirect == s.files[g].indirect && t.files[g].size == s.files[g].size)
    && (forall g :: g in s.files && g != f ==> t.files[g] == s.files[g])
    && (forall g, j :: g in s.files && 0 <= j < MAXBLOCKS ==>
          SlotVal(t.mem, t.files[g], j) == if g == f && lo <= j < hi then 0 else SlotVal(s.mem, s.files[g], j))
    && (forall b :: 0 <= b < |s.mem| && (b != s.files[f].indirect || b == 0) ==> t.mem[b] == s.mem[b])
  }

  lemma SlotCleared(s: Fs, own: map<nat, Owner>, f: nat, i: nat, free: set<nat>)
    requires InvBy(s, own) && f in s.files && i < MAXBLOCKS && SlotVal(s.mem, s.files[f], i) != 0
    ensures Cleared(s, WithSlot(s, f, i, 0, free), f, i, i + 1)
  {
    SlotChange(s, own, f, i, 0);
    IndirectBounds(s, own, f);
    hide InvBy, SetWord, SlotVal;
  }

  lemma OneBlock(s: Fs, f: nat, i: nat)
    requires f in s.files
    ensures var v := SlotVal(s.mem, s.files[f], i);
      BlocksIn(s, f, i, i + 1) == if i < MAXBLOCKS && v != 0 then {v} else {}
  {
  }

  lemma FreeSlotKeeps(s: Fs, f: nat, i: nat)
    requires Inv(s) && f in s.files
    ensures var t := FreeSlot(s, f, i);
      Inv(t) && Cleared(s, t, f, i, i + 1) && t.free == s.free + BlocksIn(s, f, i, i + 1)
  {
    hide InvBy, SlotVal, BlocksIn;
    var own :| InvBy(s, own);
    OneBlock(s, f, i);
    var v := SlotVal(s.mem, s.files[f], i);
    if i < MAXBLOCKS && v != 0 {
      DropSlotKeeps(s, own, f, i);
      SlotCleared(s, own, f, i, s.free + {v});
      assert Inv(WithSlot(s, f, i, 0, s.free + {v}));
      hide Cleared;
    }
  }

  lemma IndirectBounds(s: Fs, own: map<nat, Owner>, f: nat)
    requires InvBy(s, own) && f in s.files
    ensures s.files[f].indirect < s.n || s.files[f].indirect == 0
  {
  }

  lemma ClearedTrans(s: Fs, t: Fs, u: Fs, f: nat, lo: nat, mid: nat, hi: nat)
    requires Cleared(s, t, f, lo, mid) && Cleared(t, u, f, mid, hi) && lo <= mid <= hi
    ensures Cleared(s, u, f, lo, hi)
    ensures BlocksIn(t, f, mid, hi) == BlocksIn(s, f, mid, hi)
    ensures BlocksIn(s, f, lo, hi) == BlocksIn(s, f, lo, mid) + BlocksIn(s, f, mid, hi)
  {
  }

  lemma {:induction false} FreeSlotsKeeps(s: Fs, f: nat, lo: nat, hi: nat)
    requires Inv(s) && f in s.files && lo <= hi
    ensures var t := FreeSlots(s, f, lo, hi);
      Inv(t) && Cleared(s, t, f, lo, hi) && t.free == s.free + BlocksIn(s, f, lo, hi)
    decreases hi - lo
  {
    hide Inv, Cleared, BlocksIn;
    if lo < hi {
      var t := FreeSlot(s, f, lo);
      FreeSlotKeeps(s, f, lo);
      ClearedFile(s, t, f, lo, lo + 1);
      FreeSlotsKeeps(t, f, lo + 1, hi);
      ClearedTrans(s, t, FreeSlots(t, f, lo + 1, hi), f, lo, lo + 1, hi);
    } else {
      ClearedNone(s, f, lo, hi);
    }
  }

  lemma ClearedFile(s: Fs, t: Fs, f: nat, lo: nat, hi: nat)
    requires Cleared(s, t, f, lo, hi)
    ensures f in t.files
  {
  }

  lemma ClearedNone(s: Fs, f: nat, lo: nat, hi: nat)
    requires f in s.files && hi <= lo
    ensures Cleared(s, s, f, lo, hi) && BlocksIn(s, f, lo, hi) == {}
  {
  }

  /** file_truncate_blocks, which leaves f_size alone. */
  function Truncated(s: Fs, f: nat, newsize: nat): Fs
    requires f in s.files
  {
    var t := FreeSlots(s, f, NBlocks(newsize), NBlocks(s.files[f].size));
    if f in t.files then FreeIndirect(t, f, NBlocks(newsize)) else t
  }

  function WithSize(s: Fs, f: nat, size: nat): Fs
    requires f in s.files
  {
    s.(files := s.files[f := s.files[f].(size := size)])
  }

  /** file_set_size. */
  function Resized(s: Fs, f: nat, newsize: nat): Fs
    requires f in s.files
  {
    var t := if s.files[f].size > newsize then Truncated(s, f, newsize) else s;
    if f in t.files then WithSize(t, f, newsize) else t
  }

  /** The blocks that a file of the new size does not need. */
  ghost function Surplus(s: Fs, f: nat, newsize: nat): set<nat>
    requires f in s.files
  {
    BlocksIn(s, f, NBlocks(newsize), MAXBLOCKS) +
    if NBlocks(newsize) <= NDIRECT && s.files[f].indirect != 0 then {s.files[f].indirect} else {}
  }

  /** Past the old block count there are no blocks to free. */
  lemma TailIsEmpty(s: Fs, f: nat, lo: nat)
    requires Inv(s) && f in s.files && lo <= NBlocks(s.files[f].size)
    ensures BlocksIn(s, f, lo, NBlocks(s.files[f].size)) == BlocksIn(s, f, lo, MAXBLOCKS)
    ensures forall j :: NBlocks(s.files[f].size) <= j < MAXBLOCKS ==> SlotVal(s.mem, s.files[f], j) == 0
  {
  }

  lemma SizesOrdered(a: nat, b: nat)
    requires a <= b
    ensures NBlocks(a) <= NBlocks(b)
  {
  }

  /** All files keep the slots below `blocks`, with the same bytes; slots of f from there on are empty. */
  ghost predicate CutAt(s: Fs, t: Fs, f: nat, blocks: nat) {
    && f in s.files && t.n == s.n && t.first == s.first && t.files.Keys == s.files.Keys && |t.mem| == |s.mem|
    && (forall g :: g in s.files && g != f ==> t.files[g] == s.files[g])
    && (forall g, j :: g in s.files && 0 <= j < MAXBLOCKS ==>
          SlotVal(t.mem, t.files[g], j) == if g == f && blocks <= j then 0 else SlotVal(s.mem, s.files[g], j))
    && (forall g, j :: g in s.files && 0 <= j < MAXBLOCKS && SlotVal(t.mem, t.files[g], j) != 0 ==>
          Idle(s, t, SlotVal(t.mem, t.files[g], j)))
  }

  /** No slot holds the indirect block of f. */
  lemma SlotMissesIndirect(s: Fs, f: nat, g: nat, j: nat)
    requires Inv(s) && f in s.files && g in s.files && j < MAXBLOCKS && SlotVal(s.mem, s.files[g], j) != 0
    ensures SlotVal(s.mem, s.files[g], j) != s.files[f].indirect
  {
  }

  lemma ClearedCuts(s: Fs, t: Fs, f: nat, blocks: nat)
    requires Inv(s) && Cleared(s, t, f, blocks, MAXBLOCKS) && f in s.files
    ensures CutAt(s, t, f, blocks)
  {
    hide SlotVal, Inv, Idle;
    forall g, j | g in s.files && 0 <= j < MAXBLOCKS && SlotVal(t.mem, t.files[g], j) != 0
      ensures Idle(s, t, SlotVal(t.mem, t.files[g], j))
    {
      SlotMissesIndirect(s, f, g, j);
      ClearedIdle(s, t, f, blocks, SlotVal(s.mem, s.files[g], j));
    }
  }

  lemma ClearedIdle(s: Fs, t: Fs, f: nat, blocks: nat, b: nat)
    requires Cleared(s, t, f, blocks, MAXBLOCKS) && b != s.files[f].indirect
    ensures Idle(s, t, b)
  {
  }

  lemma ClearedAll(s: Fs, t: Fs, f: nat, lo: nat)
    requires Inv(s) && f in s.files && lo <= NBlocks(s.files[f].size) && Cleared(s, t, f, lo, NBlocks(s.files[f].size))
    ensures Cleared(s, t, f, lo, MAXBLOCKS)
  {
  }

  lemma EmptyIndirect(s: Fs, f: nat)
    requires Inv(s) && f in s.files && s.files[f].indirect != 0
    requires forall i :: NDIRECT <= i < MAXBLOCKS ==> SlotVal(s.mem, s.files[f], i) == 0
    ensures var t := WithIndirect(s, f, 0, s.free + {s.files[f].indirect});
      Inv(t) && s.files[f].indirect !in s.free
      && (forall g, j :: g in s.files && 0 <= j < MAXBLOCKS ==>
            SlotVal(t.mem, t.files[g], j) == SlotVal(s.mem, s.files[g], j))
  {
    hide InvBy, Entry;
    var own :| InvBy(s, own);
    DropIndirectKeeps(s, own, f);
    assert InvBy(WithIndirect(s, f, 0, s.free + {s.files[f].indirect}), own - {s.files[f].indirect});
  }

  lemma CutDirect(s: Fs, t: Fs, f: nat, blocks: nat)
    requires Inv(t) && CutAt(s, t, f, blocks) && blocks <= NDIRECT && t.files[f].indirect != 0
    ensures CutAt(s, FreeIndirect(t, f, blocks), f, blocks) && Inv(FreeIndirect(t, f, blocks))
    ensures t.files[f].indirect !in t.free
  {
    hide Inv, SlotVal;
    EmptyIndirect(t, f);
  }

  /** Truncation frees exactly the surplus blocks, none of them twice, and touches nothing else. */
  lemma TruncateExact(s: Fs, f: nat, newsize: nat)
    requires Inv(s) && f in s.files && newsize <= s.files[f].size
    ensures var t := Truncated(s, f, newsize);
      && Inv(t) && CutAt(s, t, f, NBlocks(newsize)) && t.files[f].size == s.files[f].size
      && t.free == s.free + Surplus(s, f, newsize)
      && (NBlocks(newsize) <= NDIRECT ==> t.files[f].indirect == 0)
  {
    hide Inv, Cleared, SlotVal, BlocksIn, NBlocks, CutAt;
    var lo, hi := NBlocks(newsize), NBlocks(s.files[f].size);
    SizesOrdered(newsize, s.files[f].size);
    FreeSlotsKeeps(s, f, lo, hi);
    TailIsEmpty(s, f, lo);
    var t := FreeSlots(s, f, lo, hi);
    ClearedAll(s, t, f, lo);
    ClearedCuts(s, t, f, lo);
    assert t.files[f].indirect == s.files[f].indirect && t.files[f].size == s.files[f].size;
    if lo <= NDIRECT && t.files[f].indirect != 0 {
      CutDirect(s, t, f, lo);
    }
  }

  /** Surplus blocks were in use. */
  lemma SurplusInUse(s: Fs, f: nat, newsize: nat, b: nat)
    requires Inv(s) && f in s.files && b in Surplus(s, f, newsize)
    ensures b !in s.free && s.first <= b < s.n
  {
  }

  /** Only sizes differ. */
  ghost predicate SameSlots(mem: seq<Block>, files: map<nat, File>, files1: map<nat, File>) {
    && files1.Keys == files.Keys
    && (forall g :: g in files ==> files1[g].indirect == files[g].indirect)
    && (forall g, j :: g in files && 0 <= j < MAXBLOCKS ==> SlotVal(mem, files1[g], j) == SlotVal(mem, files[g], j))
  }

  lemma SameSlotsOwned(mem: seq<Block>, files: map<nat, File>, files1: map<nat, File>, own: map<nat, Owner>)
    requires SameSlots(mem, files, files1) && Held(mem, files, own) && Claimed(mem, files, own)
    ensures Held(mem, files1, own) && Claimed(mem, files1, own)
  {
  }

  lemma SameSlotsKept(s: Fs, t: Fs, f: nat)
    requires t.n == s.n && t.first == s.first && t.mem == s.mem && SameSlots(s.mem, s.files, t.files)
    requires forall g :: g in s.files && g != f ==> t.files[g] == s.files[g]
    ensures Kept(s, t, f, 0, 0)
  {
  }

  lemma SizeSlots(s: Fs, f: nat, size: nat)
    requires f in s.files
    ensures SameSlots(s.mem, s.files, WithSize(s, f, size).files)
  {
  }

  lemma SizeTails(s: Fs, f: nat, size: nat)
    requires f in s.files && Tails(s.mem, s.files)
    requires forall j :: NBlocks(size) <= j < MAXBLOCKS ==> SlotVal(s.mem, s.files[f], j) == 0
    ensures Tails(s.mem, WithSize(s, f, size).files)
  {
    hide SlotVal, NBlocks;
    SizeSlots(s, f, size);
  }

  lemma WithSizeKeeps(s: Fs, f: nat, size: nat)
    requires Inv(s) && f in s.files
    requires forall j :: NBlocks(size) <= j < MAXBLOCKS ==> SlotVal(s.mem, s.files[f], j) == 0
    ensures Inv(WithSize(s, f, size)) && Kept(s, WithSize(s, f, size), f, 0, 0)
  {
    hide SlotVal, NBlocks, Held, Claimed, Cover, Kept, SameSlots, Tails;
    var own :| InvBy(s, own);
    var t := WithSize(s, f, size);
    SizeSlots(s, f, size);
    SizeTails(s, f, size);
    SameSlotsOwned(s.mem, s.files, t.files, own);
    SameSlotsKept(s, t, f);
    assert InvBy(t, own);
  }

  lemma CutSized(s: Fs, t: Fs, f: nat, blocks: nat, size: nat)
    requires CutAt(s, t, f, blocks)
    ensures CutAt(s, WithSize(t, f, size), f, blocks)
  {
    SizeSlots(t, f, size);
    hide SlotVal;
  }

  /**
   Resizing keeps conservation.  Growing takes no block; shrinking frees exactly the surplus
   and keeps the blocks below the new size, and those of all other files, with their bytes.
   */
  lemma ResizeKeeps(s: Fs, f: nat, newsize: nat)
    requires Inv(s) && f in s.files
    ensures var t := Resized(s, f, newsize);
      && Inv(t) && f in t.files && t.files[f].size == newsize
      && (newsize < s.files[f].size ==> t.free == s.free + Surplus(s, f, newsize) && CutAt(s, t, f, NBlocks(newsize)))
      && (newsize >= s.files[f].size ==> t == WithSize(s, f, newsize) && Kept(s, t, f, 0, 0))
  {
    if s.files[f].size > newsize {
      TruncateExact(s, f, newsize);
      hide Inv, SlotVal, NBlocks, Surplus, Truncated, Kept, CutAt;
      WithSizeKeeps(Truncated(s, f, newsize), f, newsize) by {
        CutTail(s, Truncated(s, f, newsize), f, NBlocks(newsize));
      }
      CutSized(s, Truncated(s, f, newsize), f, NBlocks(newsize), newsize);
    } else {
      SizesOrdered(s.files[f].size, newsize);
      TailIsEmpty(s, f, 0);
      hide Inv, SlotVal, NBlocks, Kept;
      WithSizeKeeps(s, f, newsize);
    }
  }

  lemma CutTail(s: Fs, t: Fs, f: nat, blocks: nat)
    requires CutAt(s, t, f, blocks)
    ensures forall j :: blocks <= j < MAXBLOCKS ==> SlotVal(t.mem, t.files[f], j) == 0
  {
  }
}
