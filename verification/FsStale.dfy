/**
 What file_write and file_read (fs/fs.c) come to when they adopt a stale block as the
 indirect block of a file: never to what they promise.  The slots that had no block need
 one each from those that were free, and a slot whose stale entry is taken for a block
 brings none.
 */
module FsStale {
  import opened Wrappers
  import opened Common
  import opened FsLayout
  import opened FsBlocks
  import opened FsBytes
  import opened FsWrite
  import opened FsRead

  /** The free block that becomes the indirect block of f if its slots are visited from lo on. */
  ghost function Adopts(s: Fs, f: nat, lo: nat): Option<nat>
    requires f in s.files
  {
    NthFree(s.free, Holes(s.files[f], lo), s.n)
  }

  /** The slots from lo up to hi that have no block in s. */
  ghost function Gaps(s: Fs, f: nat, lo: nat, hi: nat): set<nat>
    requires f in s.files
  {
    set k | lo <= k < hi && SlotVal(s.mem, s.files[f], k) == 0
  }

  /** The blocks taken for data. */
  ghost function Spent(s: Fs, u: Fs, b: nat): set<nat> {
    s.free - u.free - {b}
  }

  ghost predicate SameEntry(s: Fs, u: Fs, b: nat, k: nat) {
    Entry(u.mem, b, k) == Entry(s.mem, b, k)
  }

  /** The entries of b are as in s, except for those of slots from lo up to i, which were 0. */
  ghost predicate Unread(s: Fs, u: Fs, b: nat, lo: nat, i: nat) {
    forall k :: 0 <= k < NINDIRECT ==>
      if lo <= NDIRECT + k < i then Entry(s.mem, b, k) == 0 else SameEntry(s, u, b, k)
  }

  /** Before b is adopted, with slots lo up to i visited. */
  ghost predicate Bound(s: Fs, u: Fs, f: nat, b: nat, lo: nat, i: nat) {
    && f in s.files && f in u.files && Inv(u) && u.files[f].indirect == s.files[f].indirect == 0
    && Adopts(u, f, i) == Some(b) && lo <= i && (i <= NDIRECT || i == lo)
    && |s.files[f].direct| == |u.files[f].direct| == NDIRECT
    && (forall k :: i <= k < NDIRECT ==> u.files[f].direct[k] == s.files[f].direct[k])
    && (forall k :: 0 <= k < NINDIRECT ==> SameEntry(s, u, b, k))
    && u.n == s.n && u.free <= s.free && |Spent(s, u, b)| <= |Gaps(s, f, lo, i)|
  }

  /** After b is adopted. */
  ghost predicate Adopted(s: Fs, u: Fs, f: nat, b: nat) {
    && f in s.files && f in u.files && Shaped(u) && u.n == s.n && s.files[f].indirect == 0
    && u.files[f].indirect == b && 0 < b < u.n && b !in u.free && u.free <= s.free
  }

  /** Every slot visited so far has got a block of its own. */
  ghost predicate Exact(s: Fs, u: Fs, f: nat, b: nat, lo: nat, i: nat) {
    Adopted(s, u, f, b) && Unread(s, u, b, lo, i) && |Spent(s, u, b)| <= |Gaps(s, f, lo, i)|
  }

  /** Some slot visited so far has not. */
  ghost predicate Short(s: Fs, u: Fs, f: nat, b: nat, lo: nat, i: nat) {
    Adopted(s, u, f, b) && |Spent(s, u, b)| < |Gaps(s, f, lo, i)|
  }

  ghost predicate Doomed(s: Fs, u: Fs, f: nat, b: nat, lo: nat, i: nat) {
    Exact(s, u, f, b, lo, i) || Short(s, u, f, b, lo, i)
  }

  // ------------------------------------------------------------------- counting

  lemma GapHere(s: Fs, f: nat, lo: nat, i: nat)
    requires f in s.files && lo <= i && SlotVal(s.mem, s.files[f], i) == 0
    ensures |Gaps(s, f, lo, i + 1)| == |Gaps(s, f, lo, i)| + 1
  {
    hide SlotVal;
    assert Gaps(s, f, lo, i + 1) == Gaps(s, f, lo, i) + {i};
  }

  lemma GapsGrow(s: Fs, f: nat, lo: nat, i: nat)
    requires f in s.files && lo <= i
    ensures |Gaps(s, f, lo, i + 1)| >= |Gaps(s, f, lo, i)|
  {
    if SlotVal(s.mem, s.files[f], i) == 0 {
      GapHere(s, f, lo, i);
    } else {
      hide SlotVal;
      assert Gaps(s, f, lo, i + 1) == Gaps(s, f, lo, i);
    }
  }

  lemma SpendOne(s: Fs, u: Fs, t: Fs, b: nat, c: nat)
    requires u.free <= s.free && c in u.free && c != b && t.free == u.free - {c}
    ensures |Spent(s, t, b)| == |Spent(s, u, b)| + 1 && t.free <= s.free
  {
    assert Spent(s, t, b) == Spent(s, u, b) + {c};
  }

  lemma LowestIsFree(s: Fs)
    ensures Lowest(s).Some? ==> Lowest(s).value in s.free && Lowest(s).value < s.n
  {
    NthIsFree(s.free, 0, s.n);
  }

  /** As many blocks as there are slots. */
  lemma {:induction false} SlotsCount(u: Fs, f: nat, slots: set<nat>, blocks: set<nat>)
    requires f in u.files && forall k :: k in slots ==> SlotVal(u.mem, u.files[f], k) in blocks
    requires forall k, l :: k in slots && l in slots && k != l ==>
      SlotVal(u.mem, u.files[f], k) != SlotVal(u.mem, u.files[f], l)
    ensures |slots| <= |blocks|
  {
    hide SlotVal;
    if slots != {} {
      var k :| k in slots;
      var v := SlotVal(u.mem, u.files[f], k);
      SlotsCount(u, f, slots - {k}, blocks - {v});
    }
  }

  // ------------------------------------------------------- no ownership fits in the end

  /** A block used before has the owner it had, which is not a slot that was empty. */
  lemma OldReference(s: Fs, own: map<nat, Owner>, u: Fs, own1: map<nat, Owner>, f: nat, k: nat, w: nat, lo: nat,
                     hi: nat)
    requires InvBy(s, own) && InvBy(u, own1) && Kept(s, u, f, lo, hi) && w in own && f in s.files
    requires s.files[f].indirect == 0 && SlotVal(s.mem, s.files[f], k) == 0
    ensures w in own1 && own1[w] != Slot(f, k)
  {
    assert PointsAt(s.mem, s.files, own[w]) == w && s.first <= w;
    hide Tails, Held, Entry, Byte;
    match own[w]
    case Slot(g, i) => assert SlotVal(u.mem, u.files[g], i) == w;
    case Indirect(g) => assert g != f && u.files[g] == s.files[g];
  }

  /** A slot that had no block and has one has it from the free blocks. */
  lemma NewReference(s: Fs, u: Fs, own1: map<nat, Owner>, f: nat, b: nat, k: nat, lo: nat, hi: nat)
    requires Inv(s) && InvBy(u, own1) && Kept(s, u, f, lo, hi) && Adopted(s, u, f, b) && k < MAXBLOCKS
    requires SlotVal(s.mem, s.files[f], k) == 0 && SlotVal(u.mem, u.files[f], k) != 0
    ensures var w := SlotVal(u.mem, u.files[f], k); w in Spent(s, u, b) && w in own1 && own1[w] == Slot(f, k)
  {
    var own :| InvBy(s, own);
    var w := SlotVal(u.mem, u.files[f], k);
    UsedSlot(u, own1, f, k);
    assert own1[b] == Indirect(f);
    if w in own {
      OldReference(s, own, u, own1, f, k, w, lo, hi);
    }
    hide SlotVal, Kept, Held, Claimed, Tails, Shaped;
    assert u.first == s.first by {
      hide Inv;
    }
  }

  /** There are not enough blocks for the slots of `slots`. */
  lemma TooFew(s: Fs, u: Fs, f: nat, b: nat, slots: set<nat>, lo: nat, hi: nat)
    requires Inv(s) && Inv(u) && Kept(s, u, f, lo, hi) && Adopted(s, u, f, b)
    requires forall k :: k in slots ==>
      k < MAXBLOCKS && SlotVal(s.mem, s.files[f], k) == 0 && SlotVal(u.mem, u.files[f], k) != 0
    ensures |slots| <= |Spent(s, u, b)|
  {
    var own1 :| InvBy(u, own1);
    hide SlotVal, InvBy, Inv, Kept, Adopted, Spent;
    forall k | k in slots
      ensures var w := SlotVal(u.mem, u.files[f], k); w in Spent(s, u, b) && w in own1 && own1[w] == Slot(f, k)
    {
      NewReference(s, u, own1, f, b, k, lo, hi);
    }
    SlotsCount(u, f, slots, Spent(s, u, b));
  }

  /** A stale entry is in none of the slots visited, and still there. */
  lemma StaleLeft(s: Fs, u: Fs, f: nat, b: nat, j: nat, lo: nat, i: nat)
    requires Exact(s, u, f, b, lo, i) && j < NINDIRECT && Entry(s.mem, b, j) != 0
    ensures NDIRECT + j !in Gaps(s, f, lo, i)
    ensures SlotVal(s.mem, s.files[f], NDIRECT + j) == 0 && SlotVal(u.mem, u.files[f], NDIRECT + j) != 0
  {
    hide Entry, Spent, Shaped;
    assert SameEntry(s, u, b, j);
  }

  lemma GapsAre(s: Fs, f: nat, lo: nat, i: nat, k: nat)
    requires f in s.files && k in Gaps(s, f, lo, i)
    ensures lo <= k < i && SlotVal(s.mem, s.files[f], k) == 0
  {
  }

  /** Doomed states break a promise: conservation, an old reference, or a block for every slot visited. */
  lemma DoomedBreaks(s: Fs, u: Fs, f: nat, b: nat, j: nat, i0: nat, i: nat, lo: nat, hi: nat)
    requires Inv(s) && Doomed(s, u, f, b, i0, i) && i <= MAXBLOCKS && j < NINDIRECT && Entry(s.mem, b, j) != 0
    ensures !(Inv(u) && Kept(s, u, f, lo, hi)
              && forall k :: i0 <= k < i ==> SlotVal(u.mem, u.files[f], k) != 0)
  {
    hide Inv, Kept, SlotVal, Entry, Unread, Gaps, Spent, Shaped;
    if Inv(u) && Kept(s, u, f, lo, hi) && forall k :: i0 <= k < i ==> SlotVal(u.mem, u.files[f], k) != 0 {
      var gaps := Gaps(s, f, i0, i);
      forall k | k in gaps
        ensures k < MAXBLOCKS && SlotVal(s.mem, s.files[f], k) == 0 && SlotVal(u.mem, u.files[f], k) != 0
      {
        GapsAre(s, f, i0, i, k);
      }
      TooFew(s, u, f, b, gaps, lo, hi);
      if Exact(s, u, f, b, i0, i) {
        StaleLeft(s, u, f, b, j, i0, i);
        TooFew(s, u, f, b, gaps + {NDIRECT + j}, lo, hi);
      }
    }
  }

  // ----------------------------------------------------------------------- steps

  /** An entry that is 0 gets a block. */
  lemma FillGap(s: Fs, u: Fs, f: nat, b: nat, i: nat)
    requires Adopted(s, u, f, b) && NDIRECT <= i < MAXBLOCKS && Entry(u.mem, b, i - NDIRECT) == 0
    requires Filled(u, f, i).1.Got?
    ensures var t := Filled(u, f, i).0;
      && Adopted(s, t, f, b) && |Spent(s, t, b)| == |Spent(s, u, b)| + 1 && Filled(u, f, i).1.b != b
      && (forall k :: 0 <= k < NINDIRECT && k != i - NDIRECT ==> Entry(t.mem, b, k) == Entry(u.mem, b, k))
  {
    hide Word, SetWord, Entry, Spent;
    var c := Lowest(u).value;
    var t := WithSlot(u, f, i, c, u.free - {c});
    LowestIsFree(u);
    forall k | 0 <= k < NINDIRECT && k != i - NDIRECT ensures Entry(t.mem, b, k) == Entry(u.mem, b, k) {
      EntryAfter(u.mem, b, i - NDIRECT, c, b, k);
    }
    SlotShaped(u, f, i, c, u.free - {c});
    SpendOne(s, u, t, b, c);
  }

  /** Any other is taken for a block. */
  lemma TakeEntry(s: Fs, u: Fs, f: nat, b: nat, i: nat)
    requires Adopted(s, u, f, b) && NDIRECT <= i < MAXBLOCKS && Entry(u.mem, b, i - NDIRECT) != 0
    ensures Filled(u, f, i).0 == u
  {
    hide Entry, Shaped;
  }

  lemma NoSlotBefore(s: Fs, f: nat, i: nat)
    requires f in s.files && s.files[f].indirect == 0 && NDIRECT <= i
    ensures SlotVal(s.mem, s.files[f], i) == 0
  {
  }

  /** file_get_block past the direct slots. */
  lemma DoomedGet(s: Fs, u: Fs, f: nat, b: nat, lo: nat, i: nat)
    requires Doomed(s, u, f, b, lo, i) && lo <= i && NDIRECT <= i < MAXBLOCKS && Filled(u, f, i).1.Got?
    ensures var (t, r) := Filled(u, f, i);
      Short(s, t, f, b, lo, i + 1) || (Exact(s, t, f, b, lo, i + 1) && r.b != b)
  {
    hide Entry, Gaps, Spent, Filled, SlotVal, Shaped;
    NoSlotBefore(s, f, i);
    GapHere(s, f, lo, i);
    if Entry(u.mem, b, i - NDIRECT) == 0 {
      FillGap(s, u, f, b, i);
      if Exact(s, u, f, b, lo, i) {
        assert SameEntry(s, u, b, i - NDIRECT);
      }
    } else {
      TakeEntry(s, u, f, b, i);
    }
  }

  /** A memmove into any block leaves a short state short, and into another than b an exact one exact. */
  lemma DoomedPoke(s: Fs, u: Fs, f: nat, b: nat, lo: nat, i: nat, v: nat, o: nat, data: seq<nat>)
    requires Storable(u, v, o, |data|)
    requires Short(s, u, f, b, lo, i) || (Exact(s, u, f, b, lo, i) && v != b)
    ensures Doomed(s, Poked(u, v, o, data), f, b, lo, i)
  {
    var t := Poked(u, v, o, data);
    assert Spent(s, t, b) == Spent(s, u, b);
    if !Short(s, u, f, b, lo, i) {
      EntriesSame(u, t, b);
    }
    hide Entry, Splice, Gaps, Spent;
  }

  lemma EntriesSame(u: Fs, t: Fs, b: nat)
    requires Idle(u, t, b) && b < |u.mem|
    ensures forall k :: 0 <= k < NINDIRECT ==> Entry(t.mem, b, k) == Entry(u.mem, b, k)
  {
    hide Word;
    forall k | 0 <= k < NINDIRECT ensures Entry(t.mem, b, k) == Entry(u.mem, b, k) {
    }
  }

  // ------------------------------------------------------------- up to the adoption

  lemma InvFacts(s: Fs)
    requires Inv(s)
    ensures 0 !in s.free && forall f :: f in s.files ==> |s.files[f].direct| == NDIRECT
  {
  }

  /** Filling a direct slot takes the first of the blocks that were counted. */
  lemma AdoptsTake(s: Fs, f: nat, i: nat, c: nat)
    requires f in s.files && |s.files[f].direct| == NDIRECT && i < NDIRECT && s.files[f].direct[i] == 0 && c != 0
    requires Adopts(s, f, i).Some? && Lowest(s) == Some(c)
    ensures var t := WithSlot(s, f, i, c, s.free - {c});
      f in t.files && Adopts(t, f, i + 1) == Adopts(s, f, i) && Adopts(s, f, i) != Some(c)
  {
    var t := WithSlot(s, f, i, c, s.free - {c});
    HolesSame(s.files[f], t.files[f], i + 1);
    assert Holes(s.files[f], i) == 1 + Holes(s.files[f], i + 1);
    NthIsFree(t.free, Holes(t.files[f], i + 1), t.n);
  }

  /** What file_get_block does to an empty direct slot. */
  lemma DirectFill(u: Fs, f: nat, i: nat)
    requires f in u.files && |u.files[f].direct| == NDIRECT && i < NDIRECT && u.files[f].direct[i] == 0
    requires GetBlock(u, f, i).1.Got?
    ensures Lowest(u).Some? && Lowest(u).value != 0
    ensures var t, c := GetBlock(u, f, i).0, Lowest(u).value;
      && t == WithSlot(u, f, i, c, u.free - {c}) && t.free == u.free - {c} && t.mem == u.mem && t.n == u.n
      && f in t.files && t.files[f].direct == u.files[f].direct[i := c] && t.files[f].indirect == u.files[f].indirect
  {
    hide Entry, LowestFrom;
  }

  lemma DirectThere(u: Fs, f: nat, i: nat)
    requires f in u.files && |u.files[f].direct| == NDIRECT && i < NDIRECT && u.files[f].direct[i] != 0
    ensures GetBlock(u, f, i).0 == u && Adopts(u, f, i + 1) == Adopts(u, f, i)
  {
    hide Entry, LowestFrom, NthFree;
  }

  /** file_get_block on a direct slot leaves b where it is. */
  lemma BoundGet(s: Fs, u: Fs, f: nat, b: nat, lo: nat, i: nat)
    requires Bound(s, u, f, b, lo, i) && i < NDIRECT && i < NBlocks(u.files[f].size) && GetBlock(u, f, i).1.Got?
    ensures var t := GetBlock(u, f, i).0;
      && Bound(s, t, f, b, lo, i + 1) && f in t.files && t.files[f].size == u.files[f].size
      && GetBlock(u, f, i).1.b == SlotVal(t.mem, t.files[f], i) != 0
  {
    hide Inv, NBlocks, Entry, Gaps, Spent, GetBlock, Adopts, WithSlot, Roomy, Kept;
    NoNeed(u, f, i, NDIRECT);
    GetStep(u, f, i, NDIRECT);
    var t := GetBlock(u, f, i).0;
    assert s.files[f].direct[i] == u.files[f].direct[i];
    if u.files[f].direct[i] == 0 {
      DirectFill(u, f, i);
      LowestIsFree(u);
      AdoptsTake(u, f, i, Lowest(u).value);
      SpendOne(s, u, t, b, Lowest(u).value);
      GapHere(s, f, lo, i);
      assert forall k :: 0 <= k < NINDIRECT && SameEntry(s, u, b, k) ==> SameEntry(s, t, b, k);
    } else {
      GapsGrow(s, f, lo, i);
      DirectThere(u, f, i);
    }
  }

  lemma SlotInUse(u: Fs, f: nat, i: nat)
    requires Inv(u) && f in u.files && i < MAXBLOCKS && SlotVal(u.mem, u.files[f], i) != 0
    ensures var v := SlotVal(u.mem, u.files[f], i); v < |u.mem| && |u.mem[v]| == BLKSIZE && v !in u.free
  {
    hide SlotVal;
    var own :| InvBy(u, own);
    UsedSlot(u, own, f, i);
    BlockSizes(u);
  }

  lemma BoundIsFree(s: Fs, u: Fs, f: nat, b: nat, lo: nat, i: nat)
    requires Bound(s, u, f, b, lo, i)
    ensures 0 < b < |u.mem| && b in u.free
  {
    hide Inv, Gaps, Spent, Entry;
    NthIsFree(u.free, Holes(u.files[f], i), u.n);
    InvFacts(u);
    BlockSizes(u);
  }

  lemma NoNeed(u: Fs, f: nat, i: nat, m: nat)
    requires f in u.files && m <= NDIRECT
    ensures Roomy(u, f, i, m)
  {
  }

  lemma PokedFiles(u: Fs, v: nat, o: nat, data: seq<nat>)
    requires Storable(u, v, o, |data|)
    ensures var t := Poked(u, v, o, data);
      && t.files == u.files && t.free == u.free && t.n == u.n && (forall c :: c != v ==> Idle(u, t, c))
  {
    hide Splice;
  }

  /** A memmove into a direct slot leaves b as it is. */
  lemma BoundPoke(s: Fs, u: Fs, f: nat, b: nat, lo: nat, i: nat, k: nat, o: nat, data: seq<nat>)
    requires Bound(s, u, f, b, lo, i) && k < NDIRECT && SlotVal(u.mem, u.files[f], k) != 0 && o + |data| <= BLKSIZE
    ensures Storable(u, SlotVal(u.mem, u.files[f], k), o, |data|)
    ensures Bound(s, Poked(u, SlotVal(u.mem, u.files[f], k), o, data), f, b, lo, i)
  {
    hide Inv, Holes, NthFree, Entry, Gaps, Roomy, Kept, SlotVal, Poked, Idle;
    var v := SlotVal(u.mem, u.files[f], k);
    SlotInUse(u, f, k);
    BoundIsFree(s, u, f, b, lo, i);
    NoNeed(u, f, k, 0);
    PokeKeeps(u, f, k, o, data, 0);
    var t := Poked(u, v, o, data);
    PokedFiles(u, v, o, data);
    EntriesSame(u, t, b);
    assert forall k :: 0 <= k < NINDIRECT && SameEntry(s, u, b, k) ==> SameEntry(s, t, b, k);
  }

  /** The walk that adopts b. */
  lemma BoundWalk(s: Fs, u: Fs, f: nat, b: nat, lo: nat, i: nat)
    requires Bound(s, u, f, b, lo, i) && NDIRECT <= i < MAXBLOCKS
    ensures Walked(u, f, i).Some? && Exact(s, Walked(u, f, i).value, f, b, lo, i)
  {
    hide Inv, Entry, Gaps, LowestFrom;
    BoundIsFree(s, u, f, b, lo, i);
    assert Lowest(u) == Some(b);
    InvShaped(u);
    var t := WithIndirect(u, f, b, u.free - {b});
    assert Spent(s, t, b) == Spent(s, u, b);
    assert forall k :: 0 <= k < NINDIRECT && SameEntry(s, u, b, k) ==> SameEntry(s, t, b, k);
  }

  // ----------------------------------------------------------------------- rounds

  /** The slot that the loops come to next. */
  function At(pos: nat, end: nat): nat {
    if pos == end then NBlocks(end) else pos / BLKSIZE
  }

  lemma NextAt(pos: nat, end: nat)
    requires pos < end
    ensures At(pos + Chunk(pos, end), end) == pos / BLKSIZE + 1
    ensures pos / BLKSIZE < NDIRECT < NBlocks(end) ==> pos + Chunk(pos, end) < end
  {
  }

  /** Slots lo up to At(pos, end) are visited, and b is or will be adopted. */
  ghost predicate OnTheWay(s: Fs, u: Fs, f: nat, b: nat, lo: nat, pos: nat, end: nat) {
    && f in u.files && lo <= At(pos, end)
    && (|| (Doomed(s, u, f, b, lo, At(pos, end)) && NDIRECT <= At(pos, end))
        || (&& Bound(s, u, f, b, lo, At(pos, end)) && pos < end && NBlocks(end) > NDIRECT
            && end <= u.files[f].size))
  }

  /** file_get_block past the direct slots, on the way. */
  lemma VisitLater(s: Fs, u: Fs, f: nat, b: nat, lo: nat, i: nat)
    requires Doomed(s, u, f, b, lo, i) || Bound(s, u, f, b, lo, i)
    requires f in u.files && lo <= i && NDIRECT <= i && GetBlock(u, f, i).1.Got?
    ensures var (t, r) := GetBlock(u, f, i);
      Short(s, t, f, b, lo, i + 1) || (Exact(s, t, f, b, lo, i + 1) && r.b != b)
  {
    hide Exact, Short, Filled, Walked, Bound;
    GotInRange(u, f, i);
    if Doomed(s, u, f, b, lo, i) {
      DoomedWalk(s, u, f, b, lo, i);
    } else {
      BoundWalk(s, u, f, b, lo, i);
    }
    DoomedGet(s, Walked(u, f, i).value, f, b, lo, i);
  }

  lemma DoomedWalk(s: Fs, u: Fs, f: nat, b: nat, lo: nat, i: nat)
    requires Doomed(s, u, f, b, lo, i) && NDIRECT <= i
    ensures f in u.files && Walked(u, f, i) == Some(u)
  {
    hide Gaps, Spent, Unread;
  }

  /** One round of file_write past the direct slots. */
  lemma RoundLater(s: Fs, u: Fs, f: nat, b: nat, lo: nat, i: nat, o: nat, data: seq<nat>)
    requires Doomed(s, u, f, b, lo, i) || Bound(s, u, f, b, lo, i)
    requires f in u.files && lo <= i && NDIRECT <= i && GetBlock(u, f, i).1.Got?
    requires Storable(GetBlock(u, f, i).0, GetBlock(u, f, i).1.b, o, |data|)
    ensures Doomed(s, Poked(GetBlock(u, f, i).0, GetBlock(u, f, i).1.b, o, data), f, b, lo, i + 1)
  {
    hide GetBlock, Exact, Short, Bound, Splice;
    VisitLater(s, u, f, b, lo, i);
    DoomedPoke(s, GetBlock(u, f, i).0, f, b, lo, i + 1, GetBlock(u, f, i).1.b, o, data);
  }

  /** One round of file_write on a direct slot. */
  lemma RoundDirect(s: Fs, u: Fs, f: nat, b: nat, lo: nat, i: nat, o: nat, data: seq<nat>)
    requires Bound(s, u, f, b, lo, i) && i < NDIRECT && i < NBlocks(u.files[f].size) && GetBlock(u, f, i).1.Got?
    requires o + |data| <= BLKSIZE && Storable(GetBlock(u, f, i).0, GetBlock(u, f, i).1.b, o, |data|)
    ensures var t := Poked(GetBlock(u, f, i).0, GetBlock(u, f, i).1.b, o, data);
      Bound(s, t, f, b, lo, i + 1) && f in t.files && t.files[f].size == u.files[f].size
  {
    hide GetBlock, NBlocks, Splice, Inv, Adopts, Gaps, Spent, SameEntry, SlotVal;
    BoundGet(s, u, f, b, lo, i);
    BoundPoke(s, GetBlock(u, f, i).0, f, b, lo, i + 1, i, o, data);
  }

  lemma AtHere(pos: nat, end: nat)
    requires pos < end
    ensures At(pos, end) == pos / BLKSIZE
  {
  }

  /** One round of file_write on the way. */
  lemma RoundDoomed(s: Fs, u: Fs, f: nat, b: nat, lo: nat, buf: seq<nat>, offset: nat, pos: nat)
    requires offset <= pos < offset + |buf| && OnTheWay(s, u, f, b, lo, pos, offset + |buf|)
    requires GetBlock(u, f, pos / BLKSIZE).1.Got?
    requires Storable(GetBlock(u, f, pos / BLKSIZE).0, GetBlock(u, f, pos / BLKSIZE).1.b,
                      pos % BLKSIZE, Chunk(pos, offset + |buf|))
    ensures OnTheWay(s, Round(u, f, buf, offset, pos), f, b, lo, pos + Chunk(pos, offset + |buf|), offset + |buf|)
  {
    hide GetBlock, Chunk, NBlocks, Splice, Doomed, Bound, At, Storable;
    var i, end, n := pos / BLKSIZE, offset + |buf|, Chunk(pos, offset + |buf|);
    var data := buf[pos - offset..pos - offset + n];
    NextAt(pos, end);
    AtHere(pos, end);
    if i >= NDIRECT {
      RoundLater(s, u, f, b, lo, i, pos % BLKSIZE, data);
      DoomedFile(s, Round(u, f, buf, offset, pos), f, b, lo, i + 1);
    } else {
      BlockOfPosition(pos, end, u.files[f].size);
      RoundDirect(s, u, f, b, lo, i, pos % BLKSIZE, data);
    }
  }

  lemma DoomedFile(s: Fs, u: Fs, f: nat, b: nat, lo: nat, i: nat)
    requires Doomed(s, u, f, b, lo, i)
    ensures f in s.files && f in u.files && Adopted(s, u, f, b)
  {
    hide Gaps, Spent, Unread;
  }

  // ------------------------------------------------------------------ file_write

  lemma {:induction false} LoopDoomed(s: Fs, u: Fs, f: nat, b: nat, lo: nat, buf: seq<nat>, offset: nat, pos: nat)
    requires offset <= pos <= offset + |buf| && OnTheWay(s, u, f, b, lo, pos, offset + |buf|)
    requires WriteLoop(u, f, buf, offset, pos).1.Wrote?
    ensures Doomed(s, WriteLoop(u, f, buf, offset, pos).0, f, b, lo, NBlocks(offset + |buf|))
    ensures NBlocks(offset + |buf|) <= MAXBLOCKS || pos == offset + |buf|
    decreases offset + |buf| - pos
  {
    hide GetBlock, NBlocks, Round, Bound, Doomed;
    if pos < offset + |buf| {
      LoopUnfolds(u, f, buf, offset, pos);
      NextAt(pos, offset + |buf|);
      GotInRange(u, f, pos / BLKSIZE);
      hide WriteLoop, Chunk;
      RoundDoomed(s, u, f, b, lo, buf, offset, pos);
      LoopDoomed(s, Round(u, f, buf, offset, pos), f, b, lo, buf, offset, pos + Chunk(pos, offset + |buf|));
    }
  }

  lemma StaleFound(s: Fs, f: nat, lo: nat, m: nat) returns (b: nat, j: nat)
    requires f in s.files && !Roomy(s, f, lo, m)
    ensures m > NDIRECT && s.files[f].indirect == 0 && Adopts(s, f, lo) == Some(b)
    ensures j < NINDIRECT && Entry(s.mem, b, j) != 0
  {
    b := Adopts(s, f, lo).value;
    j :| 0 <= j < NINDIRECT && Entry(s.mem, b, j) != 0;
  }

  lemma Starts(s: Fs, f: nat, lo: nat, end: nat, b: nat)
    requires Inv(s) && f in s.files && s.files[f].indirect == 0 && Adopts(s, f, lo) == Some(b)
    ensures var t := Grown(s, f, end); Bound(s, t, f, b, lo, lo) && f in t.files && end <= t.files[f].size
  {
    hide Inv, Kept, NBlocks, Truncated, Entry, NthFree;
    var t := Grown(s, f, end);
    GrownKeeps(s, f, end);
    HolesSame(s.files[f], t.files[f], lo);
    InvFacts(s);
    assert Spent(s, t, b) == {};
  }

  /** The slots of a range that holds bytes have blocks. */
  lemma HeldSlots(u: Fs, f: nat, bytes: seq<nat>, at: nat, k: nat)
    requires f in u.files && bytes != [] && Holds(u, f, bytes, at, at, at + |bytes|)
    requires at / BLKSIZE <= k < NBlocks(at + |bytes|) && k < MAXBLOCKS
    ensures SlotVal(u.mem, u.files[f], k) != 0
  {
    hide SlotVal, Byte;
    assert HeldAt(u, f, k, if at < k * BLKSIZE then 0 else at - k * BLKSIZE, bytes, at);
  }

  /** A write that adopts a stale block breaks one of its promises, whatever else it does. */
  lemma WriteDoomed(s: Fs, f: nat, buf: seq<nat>, offset: nat)
    requires Inv(s) && f in s.files && buf != [] && Write(s, f, buf, offset).1.Wrote?
    requires !Roomy(s, f, offset / BLKSIZE, NBlocks(offset + |buf|))
    ensures !WriteOk(s, Write(s, f, buf, offset).0, f, buf, offset, Write(s, f, buf, offset).1)
  {
    hide Roomy, Entry, Inv, Kept, Adopts, NBlocks, WriteLoop, Grown, Holds, Bound, Doomed, At, SlotVal;
    var lo, end := offset / BLKSIZE, offset + |buf|;
    var u := Write(s, f, buf, offset).0;
    AtHere(offset, end);
    var b, j := StaleFound(s, f, lo, NBlocks(end));
    Starts(s, f, lo, end, b);
    LoopDoomed(s, Grown(s, f, end), f, b, lo, buf, offset, offset);
    DoomedBreaks(s, u, f, b, j, lo, NBlocks(end), offset, end);
    if WriteOk(s, u, f, buf, offset, Write(s, f, buf, offset).1) {
      forall k | lo <= k < NBlocks(end) ensures SlotVal(u.mem, u.files[f], k) != 0 {
        HeldSlots(u, f, buf, offset, k);
      }
    }
  }

  lemma WriteNothing(s: Fs, f: nat, offset: nat)
    requires Inv(s) && f in s.files
    ensures WriteOk(s, Write(s, f, [], offset).0, f, [], offset, Write(s, f, [], offset).1)
  {
    hide Inv, Kept, Holds, Grown;
    var t := Grown(s, f, offset);
    GrownKeeps(s, f, offset);
    KeptAnywhere(s, t, f, offset);
    HoldsNone(t, f, [], offset);
  }

  /**
   file_write keeps its promises if and only if no stale block becomes the indirect block
   of the file on the way.
   */
  lemma WriteIff(s: Fs, f: nat, buf: seq<nat>, offset: nat)
    requires Inv(s) && f in s.files && Write(s, f, buf, offset).1.Wrote?
    ensures WriteOk(s, Write(s, f, buf, offset).0, f, buf, offset, Write(s, f, buf, offset).1)
      <==> (buf == [] || Roomy(s, f, offset / BLKSIZE, NBlocks(offset + |buf|)))
  {
    hide Inv, WriteOk, Write, Roomy, NBlocks;
    if buf == [] {
      WriteNothing(s, f, offset);
    } else if Roomy(s, f, offset / BLKSIZE, NBlocks(offset + |buf|)) {
      WriteRight(s, f, buf, offset);
    } else {
      WriteDoomed(s, f, buf, offset);
    }
  }

  // ------------------------------------------------------------------- file_read

  /** One round of file_read on the way. */
  lemma GetDoomed(s: Fs, u: Fs, f: nat, b: nat, lo: nat, pos: nat, end: nat)
    requires pos < end && OnTheWay(s, u, f, b, lo, pos, end) && GetBlock(u, f, pos / BLKSIZE).1.Got?
    ensures OnTheWay(s, GetBlock(u, f, pos / BLKSIZE).0, f, b, lo, pos + Chunk(pos, end), end)
  {
    hide GetBlock, Chunk, NBlocks, Bound, At, Exact, Short, SlotVal;
    var i := pos / BLKSIZE;
    NextAt(pos, end);
    AtHere(pos, end);
    if i >= NDIRECT {
      VisitLater(s, u, f, b, lo, i);
      DoomedFile(s, GetBlock(u, f, i).0, f, b, lo, i + 1);
    } else {
      BlockOfPosition(pos, end, u.files[f].size);
      BoundGet(s, u, f, b, lo, i);
    }
  }

  lemma {:induction false} ReadLoopDoomed(s: Fs, u: Fs, f: nat, b: nat, lo: nat, offset: nat, end: nat, out: seq<nat>)
    requires offset + |out| <= end && OnTheWay(s, u, f, b, lo, offset + |out|, end)
    requires ReadLoop(u, f, offset, end, out).1.Bytes?
    ensures Doomed(s, ReadLoop(u, f, offset, end, out).0, f, b, lo, NBlocks(end))
    ensures NBlocks(end) <= MAXBLOCKS || offset + |out| == end
    decreases end - |out|
  {
    hide GetBlock, NBlocks, Bound, Doomed, Longer, ReadLoop, Chunk;
    var pos := offset + |out|;
    if pos == end {
      ReadEnds(u, f, offset, end, out);
    } else {
      ReadStops(u, f, offset, end, out, pos);
      ReadGoesOn(u, f, offset, end, out);
      NextAt(pos, end);
      GotInRange(u, f, pos / BLKSIZE);
      GetDoomed(s, u, f, b, lo, pos, end);
      ReadLoopDoomed(s, GetBlock(u, f, pos / BLKSIZE).0, f, b, lo, offset, end, Longer(u, f, offset, end, out));
    }
  }

  /** A read that adopts a stale block breaks one of its promises. */
  lemma ReadDoomed(s: Fs, f: nat, count: nat, offset: nat)
    requires Inv(s) && f in s.files && ReadFile(s, f, count, offset).1.Bytes?
    requires ReadLength(s.files[f].size, count, offset) > 0
    requires !Roomy(s, f, offset / BLKSIZE, NBlocks(offset + ReadLength(s.files[f].size, count, offset)))
    ensures !ReadOk(s, ReadFile(s, f, count, offset).0, f, count, offset, ReadFile(s, f, count, offset).1)
  {
    hide Roomy, Entry, Inv, Kept, Adopts, NBlocks, ReadLoop, Grown, Holds, Bound, Doomed, At, SlotVal, Allocated;
    var lo, end := offset / BLKSIZE, offset + ReadLength(s.files[f].size, count, offset);
    var (u, r) := ReadFile(s, f, count, offset);
    AtHere(offset, end);
    GrownSame(s, f);
    var b, j := StaleFound(s, f, lo, NBlocks(end));
    Starts(s, f, lo, s.files[f].size, b);
    ReadLoopDoomed(s, s, f, b, lo, offset, end, []);
    DoomedBreaks(s, u, f, b, j, lo, NBlocks(end), 0, 0);
    if ReadOk(s, u, f, count, offset, r) {
      forall k | lo <= k < NBlocks(end) ensures SlotVal(u.mem, u.files[f], k) != 0 {
        HeldSlots(u, f, r.data, offset, k);
      }
    }
  }

  lemma GrownSame(s: Fs, f: nat)
    requires f in s.files
    ensures Grown(s, f, s.files[f].size) == s
  {
  }

  lemma ReadNothing(s: Fs, f: nat, count: nat, offset: nat)
    requires Inv(s) && f in s.files && ReadLength(s.files[f].size, count, offset) == 0
    ensures ReadOk(s, ReadFile(s, f, count, offset).0, f, count, offset, ReadFile(s, f, count, offset).1)
  {
    hide Inv, Kept, Holds, Allocated;
    KeptSame(s, f);
    HoldsNone(s, f, [], offset);
  }

  /** file_read keeps its promises on exactly the same condition. */
  lemma ReadIff(s: Fs, f: nat, count: nat, offset: nat)
    requires Inv(s) && f in s.files && ReadFile(s, f, count, offset).1.Bytes?
    ensures var n := ReadLength(s.files[f].size, count, offset);
      ReadOk(s, ReadFile(s, f, count, offset).0, f, count, offset, ReadFile(s, f, count, offset).1)
      <==> (n == 0 || Roomy(s, f, offset / BLKSIZE, NBlocks(offset + n)))
  {
    hide Inv, ReadOk, ReadFile, Roomy, NBlocks, ReadLength;
    var n := ReadLength(s.files[f].size, count, offset);
    if n == 0 {
      ReadNothing(s, f, count, offset);
    } else if Roomy(s, f, offset / BLKSIZE, NBlocks(offset + n)) {
      ReadRight(s, f, count, offset);
    } else {
      ReadDoomed(s, f, count, offset);
    }
  }

  // ------------------------------------------------------------------ such a volume

  function Zeros(): Block {
    seq(BLKSIZE, k => 0)
  }

  /** A block with a nonzero word, entry 1. */
  function Used(): Block
    ensures |Used()| == BLKSIZE
  {
    Splice(Zeros(), 0, [0, 0, 0, 0, 1])
  }

  /** Three reserved blocks and three others, with one file that has block `slot` first. */
  function Small(size: nat, slot: nat, free: set<nat>, block3: Block): Fs {
    var direct := seq(NDIRECT, k => if k == 0 then slot else 0);
    Fs(6, 3, free, [Zeros(), Zeros(), Zeros(), block3, Zeros(), Zeros()], map[0 := File(size, direct, 0)])
  }

  lemma SmallInv()
    ensures Inv(Small(0, 0, {3, 4, 5}, Zeros()))
  {
    assert InvBy(Small(0, 0, {3, 4, 5}, Zeros()), map[]);
  }

  lemma LowestOfThree()
    ensures LowestFrom({3, 4, 5}, 0, 6) == Some(3) && LowestFrom({4, 5}, 0, 6) == Some(4)
  {
  }

  /** The first write gives the file block 3 and stores into it. */
  lemma FirstWrite()
    ensures var s, buf := Small(0, 0, {3, 4, 5}, Zeros()), [0, 0, 0, 0, 1];
      Write(s, 0, buf, 0) == (Small(5, 3, {4, 5}, Used()), Wrote(5))
  {
    var s, buf := Small(0, 0, {3, 4, 5}, Zeros()), [0, 0, 0, 0, 1];
    var g := Grown(s, 0, 5);
    assert g == Small(5, 0, {3, 4, 5}, Zeros());
    LowestOfThree();
    var t := GetBlock(g, 0, 0).0;
    assert t.files[0].direct == Small(5, 3, {4, 5}, Zeros()).files[0].direct;
    assert t == Small(5, 3, {4, 5}, Zeros()) && GetBlock(g, 0, 0).1 == Got(3);
    LoopUnfolds(g, 0, buf, 0, 0);
    assert buf[0..5] == buf && Chunk(0, 5) == 5;
    assert Round(g, 0, buf, 0, 0).mem == Small(5, 3, {4, 5}, Used()).mem;
  }

  /** Truncation frees block 3 and leaves its bytes. */
  lemma ThenTruncate()
    ensures Resized(Small(5, 3, {4, 5}, Used()), 0, 0) == Small(0, 0, {3, 4, 5}, Used())
  {
    var s := Small(5, 3, {4, 5}, Used());
    var t := FreeSlot(s, 0, 0);
    assert t.files[0].direct == Small(5, 0, {3, 4, 5}, Used()).files[0].direct;
    assert t == Small(5, 0, {3, 4, 5}, Used());
    assert FreeSlots(s, 0, 0, 1) == t;
    assert Truncated(s, 0, 0) == t;
  }

  /** The file grown past its direct slots: the next block it gets makes block 3 its indirect block. */
  lemma ThenAdopt(size: nat)
    requires size == NDIRECT * BLKSIZE + 1
    ensures var s := Small(size, 0, {3, 4, 5}, Used());
      var (t, r) := GetBlock(s, 0, NDIRECT);
      && r == Got(4) && Storable(t, 4, 0, 1)
      && !CleanWalk(s, 0, NDIRECT) && !Roomy(s, 0, NDIRECT, NDIRECT + 1)
      && !Roomy(Small(0, 0, {3, 4, 5}, Used()), 0, NDIRECT, NDIRECT + 1)
  {
    var s := Small(size, 0, {3, 4, 5}, Used());
    LowestOfThree();
    assert Entry(s.mem, 3, 0) == 0 && Entry(s.mem, 3, 1) == 1;
    var t := WithIndirect(s, 0, 3, s.free - {3});
    assert s.free - {3} == {4, 5};
    assert Walked(s, 0, NDIRECT) == Some(t) && SlotVal(t.mem, t.files[0], NDIRECT) == 0;
    assert Filled(t, 0, NDIRECT).1 == Got(4);
  }

  lemma GrownSmall(size: nat)
    requires size == NDIRECT * BLKSIZE + 1
    ensures var s := Small(0, 0, {3, 4, 5}, Used());
      Grown(s, 0, size) == Resized(s, 0, size) == Small(size, 0, {3, 4, 5}, Used())
  {
  }

  lemma SmallFiles()
    ensures forall size, slot, free, b :: 0 in Small(size, slot, free, b).files
    ensures forall size, slot, free, b :: Small(size, slot, free, b).files[0].size == size
  {
  }

  lemma SmallRoomy(s: Fs)
    requires 0 in s.files
    ensures Roomy(s, 0, 0, NBlocks(5))
  {
    NoNeed(s, 0, 0, NBlocks(5));
  }

  lemma WriteKeeps(s: Fs, u: Fs)
    requires 0 in s.files && WriteOk(s, u, 0, [0, 0, 0, 0, 1], 0, Wrote(5))
    ensures Inv(u)
  {
    hide Inv, Kept, Holds;
  }

  lemma ResizeInv(s: Fs, size: nat)
    requires Inv(s) && 0 in s.files
    ensures Inv(Resized(s, 0, size))
  {
    hide Inv, Resized, Kept, Surplus;
    ResizeKeeps(s, 0, size);
  }

  lemma LastWrite(s2: Fs, s3: Fs)
    requires 0 in s2.files && Inv(s2) && 0 in s3.files && s3 == Grown(s2, 0, NDIRECT * BLKSIZE + 1)
    requires GetBlock(s3, 0, NDIRECT).1 == Got(4) && Storable(GetBlock(s3, 0, NDIRECT).0, 4, 0, 1)
    requires !Roomy(s2, 0, NDIRECT, NDIRECT + 1)
    ensures var (u, r) := Write(s2, 0, [7], NDIRECT * BLKSIZE);
      r == Wrote(1) && !WriteOk(s2, u, 0, [7], NDIRECT * BLKSIZE, r)
  {
    hide Inv, WriteOk, Roomy, GetBlock, Grown, Round;
    var offset := NDIRECT * BLKSIZE;
    assert offset / BLKSIZE == NDIRECT && offset % BLKSIZE == 0 && Chunk(offset, offset + 1) == 1;
    assert NBlocks(offset + 1) == NDIRECT + 1;
    LoopUnfolds(s3, 0, [7], offset, offset);
    WriteIff(s2, 0, [7], offset);
  }

  lemma LastRead(s3: Fs)
    requires 0 in s3.files && Inv(s3) && s3.files[0].size == NDIRECT * BLKSIZE + 1
    requires GetBlock(s3, 0, NDIRECT).1 == Got(4) && Storable(GetBlock(s3, 0, NDIRECT).0, 4, 0, 1)
    requires !Roomy(s3, 0, NDIRECT, NDIRECT + 1)
    ensures var (u, r) := ReadFile(s3, 0, 1, NDIRECT * BLKSIZE);
      r.Bytes? && !ReadOk(s3, u, 0, 1, NDIRECT * BLKSIZE, r)
  {
    hide Inv, ReadOk, Roomy, GetBlock, Longer, ReadLoop;
    var offset := NDIRECT * BLKSIZE;
    assert offset / BLKSIZE == NDIRECT && offset % BLKSIZE == 0 && Chunk(offset, offset + 1) == 1;
    assert NBlocks(offset + 1) == NDIRECT + 1 && ReadLength(offset + 1, 1, offset) == 1;
    ReadGoesOn(s3, 0, offset, offset + 1, []);
    ReadEnds(GetBlock(s3, 0, NDIRECT).0, 0, offset, offset + 1, Longer(s3, 0, offset, offset + 1, []));
    ReadIff(s3, 0, 1, offset);
  }

  /**
   Write five bytes, truncate, and grow the file past its direct slots: then one call of
   file_get_block, a write of one byte and a read of one byte each break their promises.
   */
  lemma StaleReached() returns (s0: Fs, s1: Fs, s2: Fs, s3: Fs)
    ensures Inv(s0) && 0 in s0.files && Write(s0, 0, [0, 0, 0, 0, 1], 0) == (s1, Wrote(5)) && Inv(s1) && 0 in s1.files
    ensures s2 == Resized(s1, 0, 0) && Inv(s2) && 0 in s2.files
    ensures s3 == Resized(s2, 0, NDIRECT * BLKSIZE + 1) && Inv(s3) && 0 in s3.files
    ensures GetBlock(s3, 0, NDIRECT).1.Got? && !Inv(GetBlock(s3, 0, NDIRECT).0)
    ensures var (u, r) := Write(s2, 0, [7], NDIRECT * BLKSIZE);
      r == Wrote(1) && !WriteOk(s2, u, 0, [7], NDIRECT * BLKSIZE, r)
    ensures var (u, r) := ReadFile(s3, 0, 1, NDIRECT * BLKSIZE);
      r.Bytes? && !ReadOk(s3, u, 0, 1, NDIRECT * BLKSIZE, r)
  {
    hide Inv, Write, Resized, GetBlock, ReadFile, WriteOk, ReadOk, Small, Roomy, CleanWalk;
    var size := NDIRECT * BLKSIZE + 1;
    s0, s1 := Small(0, 0, {3, 4, 5}, Zeros()), Small(5, 3, {4, 5}, Used());
    s2, s3 := Small(0, 0, {3, 4, 5}, Used()), Small(size, 0, {3, 4, 5}, Used());
    SmallFiles();
    SmallInv();
    FirstWrite();
    SmallRoomy(s0);
    WriteRight(s0, 0, [0, 0, 0, 0, 1], 0);
    WriteKeeps(s0, s1);
    ThenTruncate();
    ResizeInv(s1, 0);
    GrownSmall(size);
    ResizeInv(s2, size);
    ThenAdopt(size);
    GetBlockIff(s3, 0, NDIRECT);
    LastWrite(s2, s3);
    LastRead(s3);
  }
}
