/**
 The lwIP heap as a layout: the offsets of its struct mem headers, ending with the
 sentinel at MEM_SIZE_ALIGNED, and which blocks are used (net/lwip/core/mem.c).
 */
module HeapLayout {

  /** MEM_ALIGNMENT, SIZEOF_STRUCT_MEM and MIN_SIZE_ALIGNED of the JOS configuration. */
  const ALIGN: nat := 4
  const HDR: nat := 12
  const MIN: nat := 12
  const U32: nat := 0x1_0000_0000

  /** Block i starts at off[i] and ends at off[i + 1]. */
  datatype Layout = Layout(off: seq<nat>, busy: seq<bool>)

  /** LWIP_MEM_ALIGN_SIZE on the 32-bit mem_size_t */
  function AlignSize(n: nat): nat {
    (n + ALIGN - 1) % U32 / ALIGN * ALIGN
  }

  /** The data size a request is rounded to. */
  function Rounded(n: nat): nat {
    if AlignSize(n) < MIN then MIN else AlignSize(n)
  }

  predicate Aligned(n: int) {
    n % ALIGN == 0
  }

  ghost predicate Ordered(off: seq<nat>) {
    forall i, j :: 0 <= i < j < |off| ==> off[i] < off[j]
  }

  /** Headers are aligned, every block holds a header and the minimum, the blocks fill the heap exactly. */
  ghost predicate Tiled(l: Layout, size: nat) {
    && |l.busy| >= 1
    && |l.off| == |l.busy| + 1
    && l.off[0] == 0
    && l.off[|l.busy|] == size
    && (forall i :: 0 <= i < |l.off| ==> Aligned(l.off[i]))
    && (forall i :: 0 <= i < |l.busy| ==> l.off[i + 1] - l.off[i] >= HDR + MIN)
  }

  /** No two neighbours are both free. */
  ghost predicate Coalesced(busy: seq<bool>) {
    forall i :: 0 <= i < |busy| - 1 ==> busy[i] || busy[i + 1]
  }

  ghost predicate WellFormed(l: Layout, size: nat) {
    Tiled(l, size) && Coalesced(l.busy)
  }

  /** Index of the lowest free block, or of the sentinel. */
  function LowestFree(busy: seq<bool>): nat {
    if busy == [] || !busy[0] then 0 else 1 + LowestFree(busy[1..])
  }

  lemma {:induction false} LowestFreeIs(busy: seq<bool>)
    ensures LowestFree(busy) <= |busy|
    ensures forall i :: 0 <= i < LowestFree(busy) ==> busy[i]
    ensures LowestFree(busy) < |busy| ==> !busy[LowestFree(busy)]
  {
    if busy != [] && busy[0] {
      LowestFreeIs(busy[1..]);
      assert forall i :: 1 <= i < 1 + LowestFree(busy[1..]) ==> busy[i] == busy[1..][i - 1];
    }
  }

  lemma {:induction false} LowestIs(busy: seq<bool>, m: nat)
    requires m <= |busy| && (forall i :: 0 <= i < m ==> busy[i]) && (m < |busy| ==> !busy[m])
    ensures LowestFree(busy) == m
  {
    if m > 0 {
      LowestIs(busy[1..], m - 1);
    }
  }

  /** The user data size of block i. */
  function Room(l: Layout, i: nat): int
    requires i < |l.busy| && |l.off| == |l.busy| + 1
  {
    l.off[i + 1] - l.off[i] - HDR
  }

  predicate Fits(l: Layout, i: nat, n: nat)
    requires i < |l.busy| && |l.off| == |l.busy| + 1
  {
    !l.busy[i] && Room(l, i) >= n
  }

  // ------------------------------------------------------------- operations

  /** mem_malloc on block i: split off the remainder when it can hold a block of its own. */
  function Carve(l: Layout, i: nat, n: nat): Layout
    requires i < |l.busy| && |l.off| == |l.busy| + 1
  {
    if Room(l, i) >= n + HDR + MIN then
      Layout(l.off[..i + 1] + [l.off[i] + HDR + n] + l.off[i + 1..], l.busy[..i] + [true, false] + l.busy[i + 1..])
    else
      l.(busy := l.busy[i := true])
  }

  /** Append block i + 1 to block i. */
  function Merge(l: Layout, i: nat): Layout
    requires i + 1 < |l.busy| && |l.off| == |l.busy| + 1
  {
    Layout(l.off[..i + 1] + l.off[i + 2..], l.busy[..i + 1] + l.busy[i + 2..])
  }

  function PlugForward(l: Layout, i: nat): Layout
    requires i < |l.busy| && |l.off| == |l.busy| + 1
  {
    if i + 1 < |l.busy| && !l.busy[i + 1] then Merge(l, i) else l
  }

  function PlugBackward(l: Layout, i: nat): Layout
    requires i < |l.busy| && |l.off| == |l.busy| + 1
  {
    if i > 0 && !l.busy[i - 1] then Merge(l, i - 1) else l
  }

  /** mem_free of block i, with plug_holes */
  function Release(l: Layout, i: nat): Layout
    requires i < |l.busy| && |l.off| == |l.busy| + 1
  {
    PlugBackward(PlugForward(l.(busy := l.busy[i := false]), i), i)
  }

  /** mem_realloc of block i down to n bytes */
  function Shrink(l: Layout, i: nat, n: nat): Layout
    requires i < |l.busy| && |l.off| == |l.busy| + 1
  {
    if n >= Room(l, i) then l
    else if i + 1 < |l.busy| && !l.busy[i + 1] then l.(off := l.off[i + 1 := l.off[i] + HDR + n])
    else if n + HDR + MIN <= Room(l, i) then
      Layout(l.off[..i + 1] + [l.off[i] + HDR + n] + l.off[i + 1..], l.busy[..i + 1] + [false] + l.busy[i + 1..])
    else l
  }

  // ------------------------------------------------- they keep the heap whole

  /**
   Rounding gives the least aligned size that is enough, except within 3 bytes of 2^32, where
   it wraps to the minimum block.
   */
  lemma RoundedFits(n: nat)
    requires n < U32
    ensures Aligned(Rounded(n)) && Rounded(n) % ALIGN == 0 && MIN <= Rounded(n) < U32
    ensures Rounded(n) >= n <==> n <= U32 - ALIGN
    ensures n <= MIN || n > U32 - ALIGN ==> Rounded(n) == MIN
    ensures n > MIN ==> Rounded(n) < n + ALIGN
  {
  }

  lemma {:induction false} TiledOrderedUpTo(l: Layout, size: nat, i: nat, j: nat)
    requires Tiled(l, size) && i < j < |l.off|
    ensures l.off[i] < l.off[j]
  {
    if i + 1 < j {
      TiledOrderedUpTo(l, size, i, j - 1);
    }
  }

  lemma OrderedPair(off: seq<nat>, i: nat, j: nat)
    requires Ordered(off) && i <= j < |off|
    ensures off[i] <= off[j]
  {
  }

  lemma TiledOrdered(l: Layout, size: nat)
    requires Tiled(l, size)
    ensures Ordered(l.off)
  {
    forall i, j | 0 <= i < j < |l.off| ensures l.off[i] < l.off[j] {
      TiledOrderedUpTo(l, size, i, j);
    }
  }

  lemma AlignedSum(a: int, n: int)
    requires Aligned(a) && Aligned(n)
    ensures Aligned(a + HDR + n)
  {
  }

  /** A new header at `at` inside block i, leaving room for a block on both sides. */
  lemma SplitTiled(l: Layout, i: nat, at: nat, busy: seq<bool>, size: nat)
    requires Tiled(l, size) && i < |l.busy| && Aligned(at)
    requires l.off[i] + HDR + MIN <= at && at + HDR + MIN <= l.off[i + 1]
    requires |busy| == |l.busy| + 1
    ensures Tiled(Layout(l.off[..i + 1] + [at] + l.off[i + 1..], busy), size)
  {
  }

  lemma CarveKeeps(l: Layout, i: nat, n: nat, size: nat)
    requires WellFormed(l, size) && i < |l.busy| && Fits(l, i, n) && Aligned(n) && n >= MIN
    ensures WellFormed(Carve(l, i, n), size)
  {
    if Room(l, i) >= n + HDR + MIN {
      var busy := l.busy[..i] + [true, false] + l.busy[i + 1..];
      CarveCoalesced(l.busy, i);
      AlignedSum(l.off[i], n);
      hide Coalesced, Aligned;
      SplitTiled(l, i, l.off[i] + HDR + n, busy, size);
    }
  }

  lemma CarveCoalesced(busy: seq<bool>, i: nat)
    requires Coalesced(busy) && i < |busy| && !busy[i]
    ensures Coalesced(busy[..i] + [true, false] + busy[i + 1..])
  {
  }

  lemma MergeTiled(l: Layout, i: nat, size: nat)
    requires Tiled(l, size) && i + 1 < |l.busy|
    ensures Tiled(Merge(l, i), size)
  {
  }

  ghost predicate CoalescedExcept(busy: seq<bool>, k: int) {
    forall i :: 0 <= i < |busy| - 1 && i != k && i != k - 1 ==> busy[i] || busy[i + 1]
  }

  lemma ForwardKeeps(l: Layout, i: nat, size: nat)
    requires Tiled(l, size) && i < |l.busy| && !l.busy[i] && CoalescedExcept(l.busy, i)
    ensures var l1 := PlugForward(l, i);
      && Tiled(l1, size) && i < |l1.busy| && !l1.busy[i] && CoalescedExcept(l1.busy, i)
      && (i + 1 < |l1.busy| ==> l1.busy[i + 1])
  {
  }

  lemma BackwardKeeps(l: Layout, i: nat, size: nat)
    requires Tiled(l, size) && i < |l.busy| && !l.busy[i] && CoalescedExcept(l.busy, i)
    requires i + 1 < |l.busy| ==> l.busy[i + 1]
    ensures WellFormed(PlugBackward(l, i), size)
  {
  }

  lemma ReleaseKeeps(l: Layout, i: nat, size: nat)
    requires WellFormed(l, size) && i < |l.busy| && l.busy[i]
    ensures WellFormed(Release(l, i), size)
  {
    var l1 := l.(busy := l.busy[i := false]);
    assert Tiled(l1, size) && CoalescedExcept(l1.busy, i);
    hide Tiled, Coalesced, CoalescedExcept, PlugForward, PlugBackward;
    ForwardKeeps(l1, i, size);
    BackwardKeeps(PlugForward(l1, i), i, size);
  }

  lemma ShrinkKeeps(l: Layout, i: nat, n: nat, size: nat)
    requires WellFormed(l, size) && i < |l.busy| && l.busy[i] && Aligned(n) && n >= MIN
    ensures WellFormed(Shrink(l, i, n), size)
  {
    hide Aligned;
    AlignedSum(l.off[i], n);
    if n >= Room(l, i) {
    } else if i + 1 < |l.busy| && !l.busy[i + 1] {
      MoveTiled(l, i, l.off[i] + HDR + n, size);
    } else if n + HDR + MIN <= Room(l, i) {
      var busy := l.busy[..i + 1] + [false] + l.busy[i + 1..];
      ShrinkCoalesced(l.busy, i);
      hide Coalesced;
      SplitTiled(l, i, l.off[i] + HDR + n, busy, size);
    }
  }

  /** The header of block i + 1 moves down to `at`. */
  lemma MoveTiled(l: Layout, i: nat, at: nat, size: nat)
    requires Tiled(l, size) && i + 1 < |l.busy| && Aligned(at)
    requires l.off[i] + HDR + MIN <= at <= l.off[i + 1]
    ensures Tiled(l.(off := l.off[i + 1 := at]), size)
  {
  }

  lemma ShrinkCoalesced(busy: seq<bool>, i: nat)
    requires Coalesced(busy) && i < |busy| && busy[i] && (i + 1 < |busy| ==> busy[i + 1])
    ensures Coalesced(busy[..i + 1] + [false] + busy[i + 1..])
  {
  }

  /** Merging the two parts of a split block gives the block back. */
  lemma MergeUndoesSplit<T>(s: seq<T>, i: nat, x: T)
    requires i < |s|
    ensures var t := s[..i + 1] + [x] + s[i + 1..]; t[..i + 1] + t[i + 2..] == s
  {
    var t := s[..i + 1] + [x] + s[i + 1..];
    assert t[..i + 1] == s[..i + 1] && t[i + 2..] == s[i + 1..];
  }

  /** Both neighbours of a free block are used. */
  lemma NoFreeNeighbour(l: Layout, i: nat)
    requires Coalesced(l.busy) && |l.off| == |l.busy| + 1 && i < |l.busy| && !l.busy[i]
    ensures PlugForward(l, i) == l && PlugBackward(l, i) == l
  {
    assert i > 0 ==> l.busy[i - 1];
  }

  /** Freeing the first part of a split free block: it merges with the second part. */
  lemma SplitReleased(l: Layout, i: nat, at: nat)
    requires |l.off| == |l.busy| + 1 && i < |l.busy| && !l.busy[i]
    ensures var l1 := Layout(l.off[..i + 1] + [at] + l.off[i + 1..], l.busy[..i] + [true, false] + l.busy[i + 1..]);
      |l1.off| == |l1.busy| + 1 && i + 1 < |l1.busy| && PlugForward(l1.(busy := l1.busy[i := false]), i) == l
  {
    var busy1 := l.busy[..i] + [true, false] + l.busy[i + 1..];
    var busy2 := l.busy[..i + 1] + [false] + l.busy[i + 1..];
    assert busy1[i := false] == busy2;
    MergeUndoesSplit(l.busy, i, false);
    MergeUndoesSplit(l.off, i, at);
  }

  /** mem_free of the block that mem_malloc just carved gives back the same layout. */
  lemma ReleaseUndoesCarve(l: Layout, i: nat, n: nat, size: nat)
    requires WellFormed(l, size) && i < |l.busy| && Fits(l, i, n)
    ensures i < |Carve(l, i, n).busy| && |Carve(l, i, n).off| == |Carve(l, i, n).busy| + 1
    ensures Release(Carve(l, i, n), i) == l
  {
    assert |l.off| == |l.busy| + 1;
    hide PlugForward, PlugBackward, Tiled, Coalesced, Room;
    NoFreeNeighbour(l, i);
    var l1 := Carve(l, i, n);
    if Room(l, i) >= n + HDR + MIN {
      SplitReleased(l, i, l.off[i] + HDR + n);
      assert PlugForward(l1.(busy := l1.busy[i := false]), i) == l;
    } else {
      assert l.busy[i := true][i := false] == l.busy;
      assert l1.(busy := l1.busy[i := false]) == l;
    }
  }

  // ------------------------------------------------------- what callers get

  /** The used blocks, as pairs of start and end offsets. */
  ghost function Live(l: Layout): set<(nat, nat)>
    requires |l.off| == |l.busy| + 1
  {
    set i | 0 <= i < |l.busy| && l.busy[i] :: (l.off[i], l.off[i + 1])
  }

  /** The free blocks, likewise. */
  ghost function Gaps(l: Layout): set<(nat, nat)>
    requires |l.off| == |l.busy| + 1
  {
    set i | 0 <= i < |l.busy| && !l.busy[i] :: (l.off[i], l.off[i + 1])
  }

  lemma LiveAt(l: Layout, size: nat, a: (nat, nat)) returns (i: nat)
    requires Tiled(l, size) && a in Live(l)
    ensures i < |l.busy| && |l.off| == |l.busy| + 1 && a == (l.off[i], l.off[i + 1])
  {
    i :| 0 <= i < |l.busy| && a == (l.off[i], l.off[i + 1]);
  }

  /** No two used blocks overlap. */
  lemma LiveDisjoint(l: Layout, size: nat, a: (nat, nat), b: (nat, nat))
    requires Tiled(l, size) && a in Live(l) && b in Live(l) && a != b
    ensures a.1 <= b.0 || b.1 <= a.0
  {
    hide Tiled, Live, Ordered;
    var i := LiveAt(l, size, a);
    var j := LiveAt(l, size, b);
    TiledOrdered(l, size);
    if i < j {
      OrderedPair(l.off, i + 1, j);
    } else if j < i {
      OrderedPair(l.off, j + 1, i);
    }
  }

  /** A used block that starts where block i does is block i. */
  lemma LiveIsAt(l: Layout, size: nat, i: nat, a: (nat, nat))
    requires Tiled(l, size) && Ordered(l.off) && a in Live(l) && i < |l.busy| && a.0 == l.off[i]
    ensures l.busy[i] && a.1 == l.off[i + 1]
  {
    var j :| 0 <= j < |l.busy| && l.busy[j] && a == (l.off[j], l.off[j + 1]);
    assert j == i;
  }

  /** After a free block a used one starts, or the heap ends. */
  lemma FreeEndsAtLive(l: Layout, size: nat, i: nat)
    requires WellFormed(l, size) && Ordered(l.off) && i < |l.busy| && !l.busy[i]
    ensures l.off[i + 1] <= size
    ensures l.off[i + 1] == size || exists a :: a in Live(l) && a.0 == l.off[i + 1]
  {
    if i + 1 < |l.busy| {
      assert l.busy[i + 1] && (l.off[i + 1], l.off[i + 2]) in Live(l);
    }
  }

  /** No used block starts inside a block. */
  lemma NoneInside(l: Layout, size: nat, i: nat, a: (nat, nat))
    requires Tiled(l, size) && Ordered(l.off) && i < |l.busy| && a in Live(l)
    ensures !(l.off[i] < a.0 < l.off[i + 1])
  {
    var j :| 0 <= j < |l.busy| && a == (l.off[j], l.off[j + 1]);
    assert j < i || j == i || j == i + 1 || j > i + 1;
  }

  lemma SameNext(l: Layout, l1: Layout, size: nat, i: nat)
    requires WellFormed(l, size) && WellFormed(l1, size) && Live(l) == Live(l1)
    requires i < |l.busy| && i < |l1.busy| && l.off[i] == l1.off[i]
    ensures l.busy[i] == l1.busy[i] && l.off[i + 1] == l1.off[i + 1]
  {
    TiledOrdered(l, size);
    TiledOrdered(l1, size);
    if l.busy[i] {
      assert (l.off[i], l.off[i + 1]) in Live(l);
      LiveIsAt(l1, size, i, (l.off[i], l.off[i + 1]));
    } else if l1.busy[i] {
      assert (l1.off[i], l1.off[i + 1]) in Live(l1);
      LiveIsAt(l, size, i, (l1.off[i], l1.off[i + 1]));
    } else {
      FreeEndsAtLive(l, size, i);
      FreeEndsAtLive(l1, size, i);
      forall a | a in Live(l) ensures !(l.off[i] < a.0 < l.off[i + 1]) && !(l.off[i] < a.0 < l1.off[i + 1]) {
        NoneInside(l, size, i, a);
        NoneInside(l1, size, i, a);
      }
    }
  }

  lemma {:induction false} SamePrefix(l: Layout, l1: Layout, size: nat, i: nat)
    requires WellFormed(l, size) && WellFormed(l1, size) && Live(l) == Live(l1) && i <= |l.busy|
    ensures i <= |l1.busy| && l.off[..i + 1] == l1.off[..i + 1] && l.busy[..i] == l1.busy[..i]
  {
    hide Live, Coalesced;
    if i > 0 {
      SamePrefix(l, l1, size, i - 1);
      assert l.off[i - 1] == l.off[..i][i - 1] == l1.off[i - 1];
      TiledOrderedUpTo(l, size, i - 1, |l.busy|);
      SameNext(l, l1, size, i - 1);
    }
  }

  /** The used blocks determine the whole layout. */
  lemma LiveDetermines(l: Layout, l1: Layout, size: nat)
    requires WellFormed(l, size) && WellFormed(l1, size) && Live(l) == Live(l1)
    ensures l == l1
  {
    SamePrefix(l, l1, size, |l.busy|);
    SamePrefix(l1, l, size, |l1.busy|);
  }

  function SizesBelow(l: Layout, i: nat): int
    requires i <= |l.busy| && |l.off| == |l.busy| + 1
  {
    if i == 0 then 0 else SizesBelow(l, i - 1) + l.off[i] as int - l.off[i - 1]
  }

  /** Block sizes always sum to MEM_SIZE_ALIGNED. */
  lemma SizesSum(l: Layout, size: nat)
    requires Tiled(l, size)
    ensures SizesBelow(l, |l.busy|) == size
  {
    SizesTelescope(l, size, |l.busy|);
  }

  lemma {:induction false} SizesTelescope(l: Layout, size: nat, i: nat)
    requires Tiled(l, size) && i <= |l.busy|
    ensures SizesBelow(l, i) == l.off[i]
  {
    if i > 0 {
      SizesTelescope(l, size, i - 1);
    }
  }

  /** The used blocks other than block i. */
  ghost function Others(l: Layout, i: nat): set<(nat, nat)>
    requires |l.off| == |l.busy| + 1
  {
    set j | 0 <= j < |l.busy| && j != i && l.busy[j] :: (l.off[j], l.off[j + 1])
  }

  lemma LiveIsOthers(l: Layout, i: nat, size: nat)
    requires Tiled(l, size) && i < |l.busy|
    ensures Live(l) == Others(l, i) + (if l.busy[i] then {(l.off[i], l.off[i + 1])} else {})
    ensures (l.off[i], l.off[i + 1]) !in Others(l, i)
  {
    TiledOrdered(l, size);
  }

  lemma FlagOthers(l: Layout, i: nat, b: bool)
    requires |l.off| == |l.busy| + 1 && i < |l.busy|
    ensures Others(l.(busy := l.busy[i := b]), i) == Others(l, i)
  {
    var l1 := l.(busy := l.busy[i := b]);
    assert forall j :: 0 <= j < |l.busy| && j != i ==> l1.busy[j] == l.busy[j];
    forall j | 0 <= j < |l.busy| && j != i && l.busy[j] ensures (l.off[j], l.off[j + 1]) in Others(l1, i) {
      assert l1.busy[j];
    }
    forall j | 0 <= j < |l.busy| && j != i && l1.busy[j] ensures (l.off[j], l.off[j + 1]) in Others(l, i) {
      assert l.busy[j];
    }
  }

  lemma SplitOthers(l: Layout, i: nat, at: nat, b: bool)
    requires |l.off| == |l.busy| + 1 && i < |l.busy|
    ensures
      var l1 := Layout(l.off[..i + 1] + [at] + l.off[i + 1..], l.busy[..i] + [b, false] + l.busy[i + 1..]);
      Others(l1, i) == Others(l, i)
  {
    var l1 := Layout(l.off[..i + 1] + [at] + l.off[i + 1..], l.busy[..i] + [b, false] + l.busy[i + 1..]);
    forall j | 0 <= j < |l1.busy| && j != i && l1.busy[j] ensures (l1.off[j], l1.off[j + 1]) in Others(l, i) {
      var k := if j < i then j else j - 1;
      assert l.busy[k] && (l1.off[j], l1.off[j + 1]) == (l.off[k], l.off[k + 1]);
    }
    forall j | 0 <= j < |l.busy| && j != i && l.busy[j] ensures (l.off[j], l.off[j + 1]) in Others(l1, i) {
      var k := if j < i then j else j + 1;
      assert l1.busy[k] && (l1.off[k], l1.off[k + 1]) == (l.off[j], l.off[j + 1]);
    }
  }

  /** Merging two free blocks touches no used block. */
  lemma MergeLive(l: Layout, i: nat)
    requires |l.off| == |l.busy| + 1 && i + 1 < |l.busy| && !l.busy[i] && !l.busy[i + 1]
    ensures Live(Merge(l, i)) == Live(l)
  {
    var l1 := Merge(l, i);
    forall j | 0 <= j < |l1.busy| && l1.busy[j] ensures (l1.off[j], l1.off[j + 1]) in Live(l) {
      var k := if j < i then j else j + 1;
      assert l.busy[k] && (l1.off[j], l1.off[j + 1]) == (l.off[k], l.off[k + 1]);
    }
    forall j | 0 <= j < |l.busy| && l.busy[j] ensures (l.off[j], l.off[j + 1]) in Live(l1) {
      var k := if j < i then j else j - 1;
      assert l1.busy[k] && (l1.off[k], l1.off[k + 1]) == (l.off[j], l.off[j + 1]);
    }
  }

  lemma CarveOthers(l: Layout, i: nat, n: nat)
    requires |l.off| == |l.busy| + 1 && i < |l.busy|
    ensures |Carve(l, i, n).off| == |Carve(l, i, n).busy| + 1 && i < |Carve(l, i, n).busy|
    ensures Others(Carve(l, i, n), i) == Others(l, i)
  {
    hide Others;
    if Room(l, i) >= n + HDR + MIN {
      SplitOthers(l, i, l.off[i] + HDR + n, true);
    } else {
      FlagOthers(l, i, true);
    }
  }

  /**
   `end` is a place to end block i for n bytes: at the request or where it ended before, and
   with less than a block to spare.
   */
  ghost predicate Ends(l: Layout, i: nat, n: nat, end: nat)
    requires i < |l.busy| && |l.off| == |l.busy| + 1
  {
    && (end == l.off[i] + HDR + n || end == l.off[i + 1])
    && l.off[i] + HDR + n <= end < l.off[i] + HDR + n + HDR + MIN
  }

  /**
   mem_malloc adds one used block and leaves the others alone.  The block holds the request and
   not a further block besides: what could be one stays free, up to the old end.
   */
  lemma CarveLive(l: Layout, i: nat, n: nat, size: nat)
    requires WellFormed(l, size) && i < |l.busy| && Fits(l, i, n) && Aligned(n) && n >= MIN
    ensures var l1 := Carve(l, i, n);
      && |l1.off| == |l1.busy| + 1 && i < |l1.busy|
      && var end := l1.off[i + 1];
      && Ends(l, i, n, end)
      && Live(l1) == Live(l) + {(l.off[i], end)}
      && (end < l.off[i + 1] ==> (end, l.off[i + 1]) in Gaps(l1))
  {
    var l1 := Carve(l, i, n);
    CarveKeeps(l, i, n, size);
    CarveOthers(l, i, n);
    var end := l1.off[i + 1];
    assert l1.busy[i] && !l.busy[i] && l1.off[i] == l.off[i] && Ends(l, i, n, end);
    assert end < l.off[i + 1] ==> !l1.busy[i + 1] && (l1.off[i + 1], l1.off[i + 2]) in Gaps(l1);
    hide Live, Others, Gaps;
    LiveIsOthers(l, i, size);
    LiveIsOthers(l1, i, size);
  }

  lemma FlagLive(l: Layout, i: nat, size: nat)
    requires Tiled(l, size) && i < |l.busy| && l.busy[i]
    ensures Live(l.(busy := l.busy[i := false])) == Live(l) - {(l.off[i], l.off[i + 1])}
  {
    var l1 := l.(busy := l.busy[i := false]);
    assert Tiled(l1, size);
    hide Live, Others, Tiled;
    LiveIsOthers(l, i, size);
    LiveIsOthers(l1, i, size);
    FlagOthers(l, i, false);
  }

  /** Merging free neighbours changes no used block. */
  lemma PlugLive(l: Layout, i: nat)
    requires |l.off| == |l.busy| + 1 && i < |l.busy| && !l.busy[i]
    ensures Live(PlugForward(l, i)) == Live(l) && Live(PlugBackward(l, i)) == Live(l)
  {
    hide Live, Merge;
    if i + 1 < |l.busy| && !l.busy[i + 1] {
      MergeLive(l, i);
    }
    if i > 0 && !l.busy[i - 1] {
      MergeLive(l, i - 1);
    }
  }

  /** mem_free removes exactly the freed block from the used ones. */
  lemma ReleaseLive(l: Layout, i: nat, size: nat)
    requires WellFormed(l, size) && i < |l.busy| && l.busy[i]
    ensures Live(Release(l, i)) == Live(l) - {(l.off[i], l.off[i + 1])}
  {
    var l1 := l.(busy := l.busy[i := false]);
    assert Tiled(l1, size) && CoalescedExcept(l1.busy, i);
    ForwardKeeps(l1, i, size);
    hide Live, CoalescedExcept, PlugForward, PlugBackward;
    FlagLive(l, i, size);
    PlugLive(l1, i);
    PlugLive(PlugForward(l1, i), i);
  }

  /**
   mem_realloc only moves the end of its own block: down to the request if a free block follows,
   else so that less than a block is spare, and not at all if it is asked to grow.
   */
  lemma ShrinkLive(l: Layout, i: nat, n: nat, size: nat)
    requires WellFormed(l, size) && i < |l.busy| && l.busy[i] && Aligned(n) && n >= MIN
    ensures var l1 := Shrink(l, i, n);
      && |l1.off| == |l1.busy| + 1 && i < |l1.busy|
      && var end := l1.off[i + 1];
      && (n <= Room(l, i) ==> Ends(l, i, n, end))
      && (n <= Room(l, i) && i + 1 < |l.busy| && !l.busy[i + 1] ==> end == l.off[i] + HDR + n)
      && (n > Room(l, i) ==> end == l.off[i + 1])
      && Live(l1) == Live(l) - {(l.off[i], l.off[i + 1])} + {(l.off[i], end)}
  {
    var l1 := Shrink(l, i, n);
    ShrinkKeeps(l, i, n, size);
    LiveIsOthers(l, i, size);
    LiveIsOthers(l1, i, size);
    hide WellFormed, Live, Others;
    ShrinkOthers(l, i, n);
  }

  lemma ShrinkOthers(l: Layout, i: nat, n: nat)
    requires |l.off| == |l.busy| + 1 && i < |l.busy| && l.busy[i]
    ensures Others(Shrink(l, i, n), i) == Others(l, i)
  {
    hide Others;
    if n >= Room(l, i) {
    } else if i + 1 < |l.busy| && !l.busy[i + 1] {
      MoveOthers(l, i, l.off[i] + HDR + n);
    } else if n + HDR + MIN <= Room(l, i) {
      SplitOthers(l, i, l.off[i] + HDR + n, true);
      assert l.busy[..i + 1] + [false] + l.busy[i + 1..] == l.busy[..i] + [true, false] + l.busy[i + 1..];
    }
  }

  lemma MoveOthers(l: Layout, i: nat, at: nat)
    requires |l.off| == |l.busy| + 1 && i + 1 < |l.busy| && !l.busy[i + 1]
    ensures Others(l.(off := l.off[i + 1 := at]), i) == Others(l, i)
  {
  }

  // ------------------------------------------------------------------ runs

  /** The lowest block that fits, or the sentinel's index. */
  function FirstFit(l: Layout, n: nat, from: nat): (i: nat)
    requires |l.off| == |l.busy| + 1 && from <= |l.busy|
    ensures from <= i <= |l.busy|
    ensures i < |l.busy| ==> Fits(l, i, n)
    ensures forall j :: from <= j < i ==> !Fits(l, j, n)
    decreases |l.busy| - from
  {
    if from == |l.busy| || Fits(l, from, n) then from else FirstFit(l, n, from + 1)
  }

  datatype Op = Malloc(n: nat) | Free(block: nat) | Realloc(block: nat, n: nat)

  /** One call; mem_free and mem_realloc get a block that is in use. */
  function Apply(l: Layout, size: nat, op: Op): Layout
    requires |l.off| == |l.busy| + 1
  {
    match op
    case Malloc(n) =>
      var i := FirstFit(l, Rounded(n), 0);
      if n == 0 || Rounded(n) > size || i == |l.busy| then l else Carve(l, i, Rounded(n))
    case Free(i) => if i < |l.busy| && l.busy[i] then Release(l, i) else l
    case Realloc(i, n) => if i < |l.busy| && l.busy[i] && Rounded(n) <= size then Shrink(l, i, Rounded(n)) else l
  }

  ghost predicate Calls(ops: seq<Op>) {
    forall i :: 0 <= i < |ops| && !ops[i].Free? ==> ops[i].n < U32
  }

  lemma ApplyKeeps(l: Layout, size: nat, op: Op)
    requires WellFormed(l, size) && (!op.Free? ==> op.n < U32)
    ensures WellFormed(Apply(l, size, op), size)
  {
    match op
    case Malloc(n) =>
      RoundedFits(n);
      var i := FirstFit(l, Rounded(n), 0);
      if i < |l.busy| { CarveKeeps(l, i, Rounded(n), size); }
    case Free(i) =>
      if i < |l.busy| && l.busy[i] { ReleaseKeeps(l, i, size); }
    case Realloc(i, n) =>
      RoundedFits(n);
      if i < |l.busy| && l.busy[i] { ShrinkKeeps(l, i, Rounded(n), size); }
  }

  ghost predicate Reaches(trace: seq<Layout>, ops: seq<Op>, size: nat) {
    && |trace| == |ops| + 1
    && (forall i :: 0 <= i < |trace| ==> |trace[i].off| == |trace[i].busy| + 1)
    && (forall i :: 0 <= i < |ops| ==> trace[i + 1] == Apply(trace[i], size, ops[i]))
  }

  /** Every run from the heap mem_init makes is well formed throughout. */
  lemma {:induction false} RunKeepsHeap(trace: seq<Layout>, ops: seq<Op>, size: nat, i: nat)
    requires Aligned(size) && size >= HDR + MIN
    requires Reaches(trace, ops, size) && Calls(ops) && i < |trace|
    requires trace[0] == Layout([0, size], [false])
    ensures WellFormed(trace[i], size)
  {
    if i > 0 {
      RunKeepsHeap(trace, ops, size, i - 1);
      ApplyKeeps(trace[i - 1], size, ops[i - 1]);
    }
  }
}
