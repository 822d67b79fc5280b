/**
 Files and their blocks (fs/fs.c, inc/fs.h) on values: block numbers in direct
 slots and in the words of an indirect block, who owns which block, and what a
 change of one slot does.
 */
module FsLayout {
  import opened Wrappers
  import opened Common

  const NDIRECT: nat := 10
  const NINDIRECT: nat := 1024
  const MAXBLOCKS: nat := NDIRECT + NINDIRECT
  const MAXFILESIZE: nat := MAXBLOCKS * BLKSIZE
  const WORDS: nat := 0x1_0000_0000

  datatype File = File(size: nat, direct: seq<nat>, indirect: nat)

  /** `first` blocks are reserved; `free` is the set of blocks whose bitmap bit is set. */
  datatype Fs = Fs(n: nat, first: nat, free: set<nat>, mem: seq<Block>, files: map<nat, File>)

  // ------------------------------------------------------ words inside blocks

  /** The little-endian 32-bit word number i. */
  function Word(b: Block, i: nat): nat
    requires 4 * i + 4 <= |b|
  {
    b[4 * i] + 256 * b[4 * i + 1] + 65536 * b[4 * i + 2] + 16777216 * b[4 * i + 3]
  }

  function SetWord(b: Block, i: nat, v: nat): (r: Block)
    requires 4 * i + 4 <= |b|
    ensures |r| == |b|
  {
    var lo, hi := v % 256, v / 256;
    b[4 * i := lo][4 * i + 1 := hi % 256][4 * i + 2 := hi / 256 % 256][4 * i + 3 := hi / 256 / 256 % 256]
  }

  lemma SplitWord(v: nat)
    requires v < WORDS
    ensures v == v % 256 + 256 * (v / 256 % 256) + 65536 * (v / 256 / 256 % 256)
                 + 16777216 * (v / 256 / 256 / 256 % 256)
  {
    var a, b, c := v / 256, v / 256 / 256, v / 256 / 256 / 256;
    assert v == v % 256 + 256 * a && a == a % 256 + 256 * b && b == b % 256 + 256 * c && c < 256;
  }

  lemma WordAfter(b: Block, i: nat, v: nat, j: nat)
    requires 4 * i + 4 <= |b| && 4 * j + 4 <= |b| && v < WORDS
    ensures Word(SetWord(b, i, v), j) == if i == j then v else Word(b, j)
  {
    SplitWord(v);
  }

  /** Entry j of the indirect block `ind`. */
  function Entry(mem: seq<Block>, ind: nat, j: nat): nat {
    if ind < |mem| && |mem[ind]| == BLKSIZE && j < NINDIRECT then Word(mem[ind], j) else 0
  }

  /** The block number in slot i of a file, 0 if there is none. */
  function SlotVal(mem: seq<Block>, x: File, i: nat): nat {
    if i < NDIRECT then (if i < |x.direct| then x.direct[i] else 0)
    else if x.indirect == 0 then 0
    else Entry(mem, x.indirect, i - NDIRECT)
  }

  function NBlocks(size: nat): nat {
    (size + BLKSIZE - 1) / BLKSIZE
  }

  // --------------------------------------------------------------- ownership

  datatype Owner = Slot(file: nat, i: nat) | Indirect(file: nat)

  ghost predicate Shaped(s: Fs) {
    && |s.mem| == s.n < WORDS && 0 < s.first
    && (forall b :: 0 <= b < |s.mem| ==> |s.mem[b]| == BLKSIZE)
    && (forall f :: f in s.files ==> |s.files[f].direct| == NDIRECT)
  }

  /** Every unreserved block is either free or owned. */
  ghost predicate Cover(n: nat, first: nat, free: set<nat>, own: map<nat, Owner>) {
    && (forall b :: b in free ==> b !in own)
    && (forall b :: b in free || b in own <==> first <= b < n)
  }

  /** What the owner of a block points at. */
  function PointsAt(mem: seq<Block>, files: map<nat, File>, o: Owner): nat {
    if o.file !in files then 0
    else match o
      case Slot(f, i) => if i < MAXBLOCKS then SlotVal(mem, files[f], i) else 0
      case Indirect(f) => files[f].indirect
  }

  /** Every owned block is referenced by its owner. */
  ghost predicate Held(mem: seq<Block>, files: map<nat, File>, own: map<nat, Owner>) {
    forall b :: b in own ==> PointsAt(mem, files, own[b]) == b
  }

  /** Whatever is referenced is owned by the one reference to it. */
  ghost predicate Claimed(mem: seq<Block>, files: map<nat, File>, own: map<nat, Owner>) {
    && (forall f, i :: f in files && 0 <= i < MAXBLOCKS && SlotVal(mem, files[f], i) != 0 ==>
          SlotVal(mem, files[f], i) in own && own[SlotVal(mem, files[f], i)] == Slot(f, i))
    && (forall f :: f in files && files[f].indirect != 0 ==>
          files[f].indirect in own && own[files[f].indirect] == Indirect(f))
  }

  /** Slots at or past the file's block count are 0. */
  ghost predicate Tails(mem: seq<Block>, files: map<nat, File>) {
    forall f, i :: f in files && NBlocks(files[f].size) <= i < MAXBLOCKS ==> SlotVal(mem, files[f], i) == 0
  }

  ghost predicate InvBy(s: Fs, own: map<nat, Owner>) {
    && Shaped(s)
    && Cover(s.n, s.first, s.free, own)
    && Held(s.mem, s.files, own)
    && Claimed(s.mem, s.files, own)
    && Tails(s.mem, s.files)
  }

  ghost predicate Inv(s: Fs) {
    exists own :: InvBy(s, own)
  }

  /** Block conservation, without naming owners: no block is referenced twice, and none is lost. */
  lemma OneReference(s: Fs, a: Owner, b: Owner)
    requires Inv(s) && a != b && PointsAt(s.mem, s.files, a) != 0
    ensures PointsAt(s.mem, s.files, b) != PointsAt(s.mem, s.files, a)
    ensures s.first <= PointsAt(s.mem, s.files, a) < s.n && PointsAt(s.mem, s.files, a) !in s.free
  {
  }

  lemma NoneLost(s: Fs, b: nat) returns (o: Owner)
    requires Inv(s) && s.first <= b < s.n && b !in s.free
    ensures PointsAt(s.mem, s.files, o) == b
  {
    var own :| InvBy(s, own);
    o := own[b];
  }

  // ---------------------------------------------------------- changing a slot

  function SlotFile(x: File, i: nat, v: nat): File {
    if i < NDIRECT && i < |x.direct| then x.(direct := x.direct[i := v]) else x
  }

  function SlotMem(mem: seq<Block>, x: File, i: nat, v: nat): (r: seq<Block>)
    ensures |r| == |mem|
  {
    if i >= NDIRECT && i < MAXBLOCKS && x.indirect < |mem| && |mem[x.indirect]| == BLKSIZE
    then mem[x.indirect := SetWord(mem[x.indirect], i - NDIRECT, v)]
    else mem
  }

  /** The two states differ only in slot i of file f, which now holds v. */
  ghost predicate OneSlot(mem: seq<Block>, files: map<nat, File>, mem1: seq<Block>, files1: map<nat, File>,
                          f: nat, i: nat, v: nat) {
    && f in files && files1.Keys == files.Keys
    && (forall g :: g in files ==> files1[g].indirect == files[g].indirect && files1[g].size == files[g].size)
    && (forall g, j :: g in files && 0 <= j < MAXBLOCKS ==>
          SlotVal(mem1, files1[g], j) == if g == f && j == i then v else SlotVal(mem, files[g], j))
  }

  /** Indirect blocks of different files are different. */
  ghost predicate Apart(mem: seq<Block>, files: map<nat, File>) {
    && (forall g :: g in files && files[g].indirect != 0 ==> files[g].indirect < |mem|)
    && (forall g, h :: g in files && h in files && g != h && files[g].indirect != 0 ==>
          files[g].indirect != files[h].indirect)
  }

  lemma InvApart(s: Fs, own: map<nat, Owner>)
    requires InvBy(s, own)
    ensures Apart(s.mem, s.files)
  {
  }

  lemma EntryAfter(mem: seq<Block>, ind: nat, i: nat, v: nat, ind2: nat, j: nat)
    requires ind < |mem| && |mem[ind]| == BLKSIZE && i < NINDIRECT && v < WORDS
    ensures Entry(mem[ind := SetWord(mem[ind], i, v)], ind2, j) ==
      if ind2 == ind && j == i then v else Entry(mem, ind2, j)
  {
    hide Word, SetWord;
    if ind2 == ind && j < NINDIRECT {
      WordAfter(mem[ind], i, v, j);
    }
  }

  lemma SlotAfter(mem: seq<Block>, files: map<nat, File>, f: nat, i: nat, v: nat)
    requires f in files && i < MAXBLOCKS && v < WORDS && Apart(mem, files)
    requires forall b :: 0 <= b < |mem| ==> |mem[b]| == BLKSIZE
    requires forall g :: g in files ==> |files[g].direct| == NDIRECT
    requires i < NDIRECT || files[f].indirect != 0
    ensures OneSlot(mem, files, SlotMem(mem, files[f], i, v), files[f := SlotFile(files[f], i, v)], f, i, v)
  {
    var mem1, files1 := SlotMem(mem, files[f], i, v), files[f := SlotFile(files[f], i, v)];
    forall g, j | g in files && 0 <= j < MAXBLOCKS
      ensures SlotVal(mem1, files1[g], j) == if g == f && j == i then v else SlotVal(mem, files[g], j)
    {
      if i >= NDIRECT && j >= NDIRECT {
        EntryAfter(mem, files[f].indirect, i - NDIRECT, v, files[g].indirect, j - NDIRECT);
      }
      hide SetWord, Entry;
    }
  }

  // ------------------------------------------------------- taking and dropping

  /** alloc_block's choice: the lowest free block from b on. */
  function LowestFrom(free: set<nat>, b: nat, n: nat): (r: Option<nat>)
    ensures r.Some? ==> b <= r.value < n && r.value in free && forall c :: b <= c < r.value ==> c !in free
    ensures r.None? ==> forall c :: b <= c < n ==> c !in free
    decreases n - b
  {
    if b >= n then None else if b in free then Some(b) else LowestFrom(free, b + 1, n)
  }

  function Lowest(s: Fs): Option<nat> {
    LowestFrom(s.free, 0, s.n)
  }

  function WithSlot(s: Fs, f: nat, i: nat, v: nat, free: set<nat>): Fs
    requires f in s.files
  {
    Fs(s.n, s.first, free, SlotMem(s.mem, s.files[f], i, v), s.files[f := SlotFile(s.files[f], i, v)])
  }

  function WithIndirect(s: Fs, f: nat, b: nat, free: set<nat>): Fs
    requires f in s.files
  {
    Fs(s.n, s.first, free, s.mem, s.files[f := s.files[f].(indirect := b)])
  }

  lemma FreshBlock(s: Fs, own: map<nat, Owner>, b: nat)
    requires InvBy(s, own) && b in s.free
    ensures 0 < b < s.n < WORDS && b !in own
  {
  }

  lemma SlotShaped(s: Fs, f: nat, i: nat, v: nat, free: set<nat>)
    requires Shaped(s) && f in s.files
    ensures Shaped(WithSlot(s, f, i, v, free))
  {
  }

  lemma SlotChange(s: Fs, own: map<nat, Owner>, f: nat, i: nat, v: nat)
    requires InvBy(s, own) && f in s.files && i < MAXBLOCKS && v < WORDS && (i < NDIRECT || s.files[f].indirect != 0)
    ensures OneSlot(s.mem, s.files, WithSlot(s, f, i, v, s.free).mem, WithSlot(s, f, i, v, s.free).files, f, i, v)
  {
    hide Cover, Held, Claimed, Tails, Apart;
    InvApart(s, own);
    SlotAfter(s.mem, s.files, f, i, v);
  }

  lemma OneSlotHeld(mem: seq<Block>, files: map<nat, File>, mem1: seq<Block>, files1: map<nat, File>,
                    f: nat, i: nat, v: nat, own: map<nat, Owner>, own1: map<nat, Owner>)
    requires Held(mem, files, own) && OneSlot(mem, files, mem1, files1, f, i, v) && i < MAXBLOCKS
    requires forall c :: c in own1 ==>
      (c in own && own1[c] == own[c] && own[c] != Slot(f, i)) || (c == v && own1[c] == Slot(f, i))
    ensures Held(mem1, files1, own1)
  {
  }

  lemma OneSlotClaimed(mem: seq<Block>, files: map<nat, File>, mem1: seq<Block>, files1: map<nat, File>,
                       f: nat, i: nat, v: nat, own: map<nat, Owner>, own1: map<nat, Owner>)
    requires Claimed(mem, files, own) && OneSlot(mem, files, mem1, files1, f, i, v)
    requires v != 0 ==> v in own1 && own1[v] == Slot(f, i)
    requires forall c :: c in own && own[c] != Slot(f, i) ==> c in own1 && own1[c] == own[c]
    ensures Claimed(mem1, files1, own1)
  {
  }

  lemma OneSlotTails(mem: seq<Block>, files: map<nat, File>, mem1: seq<Block>, files1: map<nat, File>, f: nat, i: nat,
                     v: nat)
    requires Tails(mem, files) && OneSlot(mem, files, mem1, files1, f, i, v)
    requires v != 0 ==> i < NBlocks(files[f].size)
    ensures Tails(mem1, files1)
  {
  }

  /** An empty slot takes a free block. */
  lemma TakeSlotKeeps(s: Fs, own: map<nat, Owner>, f: nat, i: nat, b: nat)
    requires InvBy(s, own) && f in s.files && i < MAXBLOCKS && (i < NDIRECT || s.files[f].indirect != 0)
    requires b in s.free && SlotVal(s.mem, s.files[f], i) == 0 && i < NBlocks(s.files[f].size)
    ensures InvBy(WithSlot(s, f, i, b, s.free - {b}), own[b := Slot(f, i)])
  {
    hide SlotVal, SlotMem, SlotFile, NBlocks, Shaped, Held, Claimed, Tails, OneSlot;
    FreshBlock(s, own, b);
    SlotChange(s, own, f, i, b);
    SlotShaped(s, f, i, b, s.free - {b});
    EmptySlot(s, own, f, i);
    var t, own1 := WithSlot(s, f, i, b, s.free - {b}), own[b := Slot(f, i)];
    OneSlotHeld(s.mem, s.files, t.mem, t.files, f, i, b, own, own1);
    OneSlotClaimed(s.mem, s.files, t.mem, t.files, f, i, b, own, own1);
    OneSlotTails(s.mem, s.files, t.mem, t.files, f, i, b);
  }

  lemma EmptySlot(s: Fs, own: map<nat, Owner>, f: nat, i: nat)
    requires InvBy(s, own) && f in s.files && i < MAXBLOCKS && SlotVal(s.mem, s.files[f], i) == 0
    ensures forall c :: c in own ==> own[c] != Slot(f, i)
  {
  }

  lemma UsedSlot(s: Fs, own: map<nat, Owner>, f: nat, i: nat)
    requires InvBy(s, own) && f in s.files && i < MAXBLOCKS && SlotVal(s.mem, s.files[f], i) != 0
    ensures var b := SlotVal(s.mem, s.files[f], i);
      && 0 < b < s.n && b !in s.free && b in own && own[b] == Slot(f, i)
      && (forall c :: c in own && own[c] == Slot(f, i) ==> c == b)
  {
  }

  /** A used slot gives its block back. */
  lemma DropSlotKeeps(s: Fs, own: map<nat, Owner>, f: nat, i: nat)
    requires InvBy(s, own) && f in s.files && i < MAXBLOCKS && SlotVal(s.mem, s.files[f], i) != 0
    ensures var b := SlotVal(s.mem, s.files[f], i);
      b in own && own[b] == Slot(f, i) && InvBy(WithSlot(s, f, i, 0, s.free + {b}), own - {b})
  {
    var b := SlotVal(s.mem, s.files[f], i);
    UsedSlot(s, own, f, i);
    SlotChange(s, own, f, i, 0);
    SlotShaped(s, f, i, 0, s.free + {b});
    hide SlotVal, SlotMem, SlotFile, NBlocks, Shaped, Held, Claimed, Tails, OneSlot;
    var t, own1 := WithSlot(s, f, i, 0, s.free + {b}), own - {b};
    OneSlotHeld(s.mem, s.files, t.mem, t.files, f, i, 0, own, own1);
    OneSlotClaimed(s.mem, s.files, t.mem, t.files, f, i, 0, own, own1);
    OneSlotTails(s.mem, s.files, t.mem, t.files, f, i, 0);
  }

  // ------------------------------------------------------- the indirect block

  /** No word of the block is set. */
  ghost predicate ZeroWords(mem: seq<Block>, b: nat) {
    forall j :: 0 <= j < NINDIRECT ==> Entry(mem, b, j) == 0
  }

  /** Changing the indirect pointer of f from or to a block without entries changes no slot. */
  ghost predicate OneIndirect(mem: seq<Block>, files: map<nat, File>, files1: map<nat, File>, f: nat, b: nat) {
    && f in files && files1 == files[f := files[f].(indirect := b)]
    && (forall g, j :: g in files && 0 <= j < MAXBLOCKS ==> SlotVal(mem, files1[g], j) == SlotVal(mem, files[g], j))
  }

  lemma TakeIndirectKeeps(s: Fs, own: map<nat, Owner>, f: nat, b: nat)
    requires InvBy(s, own) && f in s.files && s.files[f].indirect == 0 && b in s.free && ZeroWords(s.mem, b)
    ensures InvBy(WithIndirect(s, f, b, s.free - {b}), own[b := Indirect(f)])
  {
    FreshBlock(s, own, b);
    var t, own1 := WithIndirect(s, f, b, s.free - {b}), own[b := Indirect(f)];
    assert OneIndirect(s.mem, s.files, t.files, f, b) by {
      hide Entry, Held, Claimed, Tails;
    }
    hide ZeroWords, SlotVal, NBlocks;
    assert Held(s.mem, t.files, own1) by {
      hide Claimed, Tails;
      forall c | c in own1 ensures PointsAt(s.mem, t.files, own1[c]) == c {
        assert c != b ==> PointsAt(s.mem, s.files, own[c]) == c && s.first <= c;
      }
    }
    hide Held;
  }

  /** An indirect block all of whose slots are empty can go. */
  lemma DropIndirectKeeps(s: Fs, own: map<nat, Owner>, f: nat)
    requires InvBy(s, own) && f in s.files && s.files[f].indirect != 0
    requires forall i :: NDIRECT <= i < MAXBLOCKS ==> SlotVal(s.mem, s.files[f], i) == 0
    ensures var b := s.files[f].indirect;
      b in own && 0 < b < s.n && b !in s.free && InvBy(WithIndirect(s, f, 0, s.free + {b}), own - {b})
  {
    var b := s.files[f].indirect;
    var t, own1 := WithIndirect(s, f, 0, s.free + {b}), own - {b};
    assert OneIndirect(s.mem, s.files, t.files, f, 0) by {
      hide Entry, Held, Claimed, Tails;
    }
    hide SlotVal, NBlocks;
    assert Held(s.mem, t.files, own1) by {
      hide Tails;
      forall c | c in own1 ensures PointsAt(s.mem, t.files, own1[c]) == c {
        assert PointsAt(s.mem, s.files, own[c]) == c && s.first <= c;
      }
    }
    hide Held;
  }

  /** Bytes of data blocks are nobody's pointers. */
  lemma DataKeeps(s: Fs, own: map<nat, Owner>, b: nat, data: Block)
    requires InvBy(s, own) && b in own && own[b].Slot? && b < s.n && |data| == BLKSIZE
    ensures InvBy(s.(mem := s.mem[b := data]), own)
    ensures forall f, i :: f in s.files && 0 <= i < MAXBLOCKS ==>
      SlotVal(s.mem[b := data], s.files[f], i) == SlotVal(s.mem, s.files[f], i)
  {
    var mem1 := s.mem[b := data];
    forall f, i | f in s.files && 0 <= i < MAXBLOCKS
      ensures SlotVal(mem1, s.files[f], i) == SlotVal(s.mem, s.files[f], i)
    {
      hide Held, Tails;
    }
    hide SlotVal, NBlocks;
    assert Held(mem1, s.files, own) by {
      hide Claimed, Tails;
      forall c | c in own ensures PointsAt(mem1, s.files, own[c]) == c {
        assert PointsAt(s.mem, s.files, own[c]) == c;
      }
    }
    hide Held;
  }
}
