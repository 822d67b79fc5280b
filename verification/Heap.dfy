/**
 The lwIP heap in place: struct mem headers at their offsets in `ram`, with the
 lowest-free pointer (net/lwip/core/mem.c).  Methods are proved against HeapLayout.
 */
module Heap {
  import opened Wrappers
  import opened HeapLayout

  // ------------------------------------------------------------ header fields

  ghost predicate Bounded(off: seq<nat>, size: nat) {
    Ordered(off) && forall i :: 0 <= i < |off| ==> off[i] <= size
  }

  ghost predicate Nexts(next: seq<nat>, off: seq<nat>) {
    forall i :: 0 <= i < |off| - 1 ==> off[i] < |next| && next[off[i]] == off[i + 1]
  }

  /** prev inverts next, except at the sentinel. */
  ghost predicate Prevs(prev: seq<nat>, off: seq<nat>) {
    && |prev| > 0 && prev[0] == 0
    && forall i :: 1 <= i < |off| - 1 ==> off[i] < |prev| && prev[off[i]] == off[i - 1]
  }

  ghost predicate Useds(used: seq<bool>, off: seq<nat>, busy: seq<bool>)
    requires |off| == |busy| + 1
  {
    forall i :: 0 <= i < |busy| ==> off[i] < |used| && used[off[i]] == busy[i]
  }

  /** The header fields read back the layout. */
  ghost predicate Links(next: seq<nat>, prev: seq<nat>, used: seq<bool>, l: Layout, size: nat) {
    && |next| == |prev| == |used| == size + 1
    && Tiled(l, size)
    && Bounded(l.off, size)
    && Nexts(next, l.off)
    && Prevs(prev, l.off)
    && Useds(used, l.off, l.busy)
    && used[size]
  }

  lemma LinksTiled(l: Layout, size: nat)
    requires Tiled(l, size)
    ensures Bounded(l.off, size)
  {
    TiledOrdered(l, size);
  }

  lemma MergeNexts(next: seq<nat>, off: seq<nat>, size: nat, i: nat)
    requires Bounded(off, size) && i + 2 < |off| && |next| == size + 1 && Nexts(next, off)
    ensures Nexts(next[off[i] := off[i + 2]], off[..i + 1] + off[i + 2..])
  {
  }

  lemma MergePrevs(prev: seq<nat>, off: seq<nat>, size: nat, i: nat)
    requires Bounded(off, size) && i + 2 < |off| && |prev| == size + 1 && Prevs(prev, off)
    ensures Prevs(prev[off[i + 2] := off[i]], off[..i + 1] + off[i + 2..])
  {
  }

  lemma MergeUseds(used: seq<bool>, off: seq<nat>, busy: seq<bool>, i: nat)
    requires |off| == |busy| + 1 && i + 1 < |busy| && Useds(used, off, busy)
    ensures Useds(used, off[..i + 1] + off[i + 2..], busy[..i + 1] + busy[i + 2..])
  {
  }

  lemma SplitNexts(next: seq<nat>, off: seq<nat>, size: nat, i: nat, at: nat)
    requires Bounded(off, size) && i + 1 < |off| && |next| == size + 1 && off[i] < at < off[i + 1]
    requires Nexts(next, off)
    ensures Nexts(next[at := off[i + 1]][off[i] := at], off[..i + 1] + [at] + off[i + 1..])
  {
  }

  lemma SplitPrevs(prev: seq<nat>, off: seq<nat>, size: nat, i: nat, at: nat)
    requires Bounded(off, size) && i + 1 < |off| && |prev| == size + 1 && off[i] < at < off[i + 1]
    requires Prevs(prev, off)
    ensures var o := off[..i + 1] + [at] + off[i + 1..];
      && Prevs(prev[at := off[i]][off[i + 1] := at], o)
      && (i + 2 == |off| ==> Prevs(prev[at := off[i]], o))
  {
  }

  lemma SplitUseds(used: seq<bool>, off: seq<nat>, busy: seq<bool>, size: nat, i: nat, at: nat, b: bool)
    requires Bounded(off, size) && |off| == |busy| + 1 && i < |busy| && |used| == size + 1 && off[i] < at < off[i + 1]
    requires Useds(used, off, busy)
    ensures Useds(used[at := false][off[i] := b], off[..i + 1] + [at] + off[i + 1..],
                  busy[..i] + [b, false] + busy[i + 1..])
  {
  }

  lemma FlagLinks(next: seq<nat>, prev: seq<nat>, used: seq<bool>, l: Layout, size: nat, i: nat, b: bool)
    requires Links(next, prev, used, l, size) && i < |l.busy|
    ensures l.off[i] < size
    ensures Links(next, prev, used[l.off[i] := b], l.(busy := l.busy[i := b]), size)
  {
  }

  /** mem->next = nmem->next; ram[nmem->next].prev = mem */
  lemma MergeLinks(next: seq<nat>, prev: seq<nat>, used: seq<bool>, l: Layout, size: nat, i: nat)
    requires Links(next, prev, used, l, size) && i + 1 < |l.busy|
    ensures l.off[i] < size && l.off[i + 2] <= size
    ensures Links(next[l.off[i] := l.off[i + 2]], prev[l.off[i + 2] := l.off[i]], used, Merge(l, i), size)
  {
    hide Nexts, Prevs, Useds;
    assert l.off[i] < l.off[i + 2] <= size;
    MergeTiled(l, i, size);
    LinksTiled(Merge(l, i), size);
    MergeNexts(next, l.off, size, i);
    MergePrevs(prev, l.off, size, i);
    MergeUseds(used, l.off, l.busy, i);
  }

  /** The header fields after a new free header is made at `at` inside block i. */
  lemma SplitLinks(next: seq<nat>, prev: seq<nat>, used: seq<bool>, l: Layout, size: nat, i: nat, at: nat, b: bool,
                   prev1: seq<nat>)
    requires Links(next, prev, used, l, size) && i < |l.busy| && Aligned(at)
    requires l.off[i] + HDR + MIN <= at && at + HDR + MIN <= l.off[i + 1] <= size
    requires prev1 == if l.off[i + 1] != size then prev[at := l.off[i]][l.off[i + 1] := at] else prev[at := l.off[i]]
    ensures Links(next[at := l.off[i + 1]][l.off[i] := at], prev1, used[at := false][l.off[i] := b],
                  Layout(l.off[..i + 1] + [at] + l.off[i + 1..], l.busy[..i] + [b, false] + l.busy[i + 1..]), size)
  {
    hide Nexts, Prevs, Useds, Aligned;
    var l1 := Layout(l.off[..i + 1] + [at] + l.off[i + 1..], l.busy[..i] + [b, false] + l.busy[i + 1..]);
    SplitTiled(l, i, at, l1.busy, size);
    LinksTiled(l1, size);
    SplitNexts(next, l.off, size, i, at);
    SplitPrevs(prev, l.off, size, i, at);
    SplitUseds(used, l.off, l.busy, size, i, at, b);
    assert l.off[i + 1] == size ==> i + 1 == |l.busy|;
  }

  /** The header fields after the free header of block i + 1 is moved down to `at`. */
  lemma MoveLinks(next: seq<nat>, prev: seq<nat>, used: seq<bool>, l: Layout, size: nat, i: nat, at: nat,
                  prev1: seq<nat>)
    requires Links(next, prev, used, l, size) && i + 1 < |l.busy| && !l.busy[i + 1] && Aligned(at)
    requires l.off[i] + HDR + MIN <= at <= l.off[i + 1] < l.off[i + 2] <= size
    requires prev1 == if l.off[i + 2] != size then prev[at := l.off[i]][l.off[i + 2] := at] else prev[at := l.off[i]]
    ensures Links(next[at := l.off[i + 2]][l.off[i] := at], prev1, used[at := false],
                  l.(off := l.off[i + 1 := at]), size)
  {
    hide Aligned, Nexts, Prevs, Useds;
    var l1 := l.(off := l.off[i + 1 := at]);
    MoveTiled(l, i, at, size);
    LinksTiled(l1, size);
    MoveNexts(next, l.off, size, i, at);
    MovePrevs(prev, l.off, size, i, at);
    MoveUseds(used, l.off, l.busy, size, i, at);
    assert l.off[i + 2] == size ==> i + 2 == |l.busy|;
  }

  lemma MoveNexts(next: seq<nat>, off: seq<nat>, size: nat, i: nat, at: nat)
    requires Bounded(off, size) && i + 2 < |off| && |next| == size + 1 && Nexts(next, off) && off[i] < at <= off[i + 1]
    ensures Nexts(next[at := off[i + 2]][off[i] := at], off[i + 1 := at])
  {
  }

  lemma MovePrevs(prev: seq<nat>, off: seq<nat>, size: nat, i: nat, at: nat)
    requires Bounded(off, size) && i + 2 < |off| && |prev| == size + 1 && Prevs(prev, off) && off[i] < at <= off[i + 1]
    ensures Prevs(prev[at := off[i]][off[i + 2] := at], off[i + 1 := at])
    ensures i + 3 == |off| ==> Prevs(prev[at := off[i]], off[i + 1 := at])
  {
  }

  lemma MoveUseds(used: seq<bool>, off: seq<nat>, busy: seq<bool>, size: nat, i: nat, at: nat)
    requires Bounded(off, size) && |off| == |busy| + 1 && i + 1 < |busy| && |used| == size + 1
    requires Useds(used, off, busy) && !busy[i + 1] && off[i] < at <= off[i + 1]
    ensures Useds(used[at := false], off[i + 1 := at], busy)
  {
  }

  /** What the fields of block i say. */
  lemma FieldsAt(next: seq<nat>, prev: seq<nat>, used: seq<bool>, l: Layout, size: nat, i: nat)
    requires Links(next, prev, used, l, size) && i < |l.busy|
    ensures l.off[i] < size && l.off[i + 1] <= size
    ensures next[l.off[i]] == l.off[i + 1] && used[l.off[i]] == l.busy[i]
    ensures l.off[i + 1] == size <==> i + 1 == |l.busy|
    ensures i + 1 < |l.busy| ==> used[l.off[i + 1]] == l.busy[i + 1]
    ensures i > 0 ==> prev[l.off[i]] == l.off[i - 1] && l.off[i - 1] < l.off[i] && used[l.off[i - 1]] == l.busy[i - 1]
    ensures i == 0 ==> prev[l.off[i]] == l.off[i]
    ensures l.off[i] < l.off[i + 1]
  {
  }

  /** Merging two free blocks does not move the lowest free one. */
  lemma MergeLowest(l: Layout, i: nat)
    requires |l.off| == |l.busy| + 1 && i + 1 < |l.busy| && !l.busy[i] && !l.busy[i + 1] && Ordered(l.off)
    ensures LowestFree(l.busy) <= i && l.off[LowestFree(l.busy)] < l.off[i + 1]
    ensures LowestFree(l.busy) <= i && LowestFree(Merge(l, i).busy) == LowestFree(l.busy)
    ensures LowestFree(l.busy) < |Merge(l, i).off|
    ensures Merge(l, i).off[LowestFree(l.busy)] == l.off[LowestFree(l.busy)]
  {
    var b, m := Merge(l, i).busy, LowestFree(l.busy);
    LowestFreeIs(l.busy);
    assert b[m] == l.busy[m];
    assert forall j :: 0 <= j < m ==> b[j] == l.busy[j];
    LowestIs(b, m);
  }

  lemma LinksAreTiled(next: seq<nat>, prev: seq<nat>, used: seq<bool>, l: Layout, size: nat)
    requires Links(next, prev, used, l, size)
    ensures Tiled(l, size) && Bounded(l.off, size)
  {
  }

  /** Freeing block i makes it the lowest free one exactly when it lies below the old one. */
  lemma FreedLowest(l: Layout, i: nat, size: nat)
    requires Tiled(l, size) && Bounded(l.off, size) && i < |l.busy| && l.busy[i]
    ensures LowestFree(l.busy) <= |l.busy|
    ensures var m := LowestFree(l.busy);
      && (l.off[i] < l.off[m] <==> i < m)
      && LowestFree(l.busy[i := false]) == if i < m then i else m
  {
    var m := LowestFree(l.busy);
    LowestFreeIs(l.busy);
    LowestIs(l.busy[i := false], if i < m then i else m);
  }

  lemma FreedExcept(busy: seq<bool>, i: nat)
    requires Coalesced(busy) && i < |busy|
    ensures CoalescedExcept(busy[i := false], i)
  {
  }

  lemma ForwardStart(l: Layout, i: nat)
    requires |l.off| == |l.busy| + 1 && i < |l.busy|
    ensures i < |PlugForward(l, i).off| && PlugForward(l, i).off[i] == l.off[i]
  {
  }

  /** Starting the search at a later index skips only blocks that do not fit. */
  lemma {:induction false} FitsSkip(l: Layout, n: nat, from: nat, i: nat)
    requires |l.off| == |l.busy| + 1 && from <= i <= |l.busy|
    requires forall j :: from <= j < i ==> !Fits(l, j, n)
    ensures FirstFit(l, n, from) == FirstFit(l, n, i)
    decreases i - from
  {
  }

  /** Some free block holds a header and n bytes. */
  ghost predicate Available(l: Layout, n: nat)
    requires |l.off| == |l.busy| + 1
  {
    exists j :: 0 <= j < |l.busy| && !l.busy[j] && l.off[j + 1] - l.off[j] >= HDR + n
  }

  lemma AvailableIff(l: Layout, n: nat, size: nat)
    requires |l.off| == |l.busy| + 1 && Bounded(l.off, size)
    ensures Available(l, n) <==> FirstFit(l, n, 0) < |l.busy|
    ensures Available(l, n) ==> n <= size
  {
    hide Ordered;
    if Available(l, n) {
      var j :| 0 <= j < |l.busy| && !l.busy[j] && l.off[j + 1] - l.off[j] >= HDR + n;
      assert Fits(l, j, n);
    }
  }

  /** A header is aligned, and lies at the end of the heap only if it is the sentinel. */
  lemma HeaderAt(l: Layout, size: nat, i: nat)
    requires Tiled(l, size) && Ordered(l.off) && i <= |l.busy|
    ensures (l.off[i] + HDR) % ALIGN == 0 && (l.off[i] == size <==> i == |l.busy|)
  {
  }

  /** The guard `ptr < MEM_SIZE_ALIGNED - size` never hides a fit. */
  lemma NoFitAbove(l: Layout, size: nat, n: nat, i: nat)
    requires Tiled(l, size) && Bounded(l.off, size) && i <= |l.busy| && l.off[i] + n >= size
    ensures FirstFit(l, n, i) == |l.busy|
  {
  }

  /** if (p == from) p = to */
  function Redirect(p: nat, from: nat, to: nat): nat {
    if p == from then to else p
  }

  /**
   If the carved block was not the lowest free one, the lowest free one stays; otherwise it
   is searched from there.
   */
  lemma CarveLowest(l: Layout, i: nat, n: nat, size: nat)
    requires Tiled(l, size) && Bounded(l.off, size) && i < |l.busy| && Fits(l, i, n)
    ensures LowestFree(l.busy) <= i
    ensures forall k :: 0 <= k < LowestFree(l.busy) ==> Carve(l, i, n).busy[k]
    ensures Carve(l, i, n).off[LowestFree(l.busy)] == l.off[LowestFree(l.busy)]
    ensures LowestFree(l.busy) < i ==> LowestFree(Carve(l, i, n).busy) == LowestFree(l.busy)
    ensures l.off[i] == l.off[LowestFree(l.busy)] <==> i == LowestFree(l.busy)
    ensures LowestFree(l.busy) < |Carve(l, i, n).off|
  {
    var m := LowestFree(l.busy);
    LowestFreeIs(l.busy);
    var b := Carve(l, i, n).busy;
    assert forall k :: 0 <= k < i ==> b[k] == l.busy[k];
    if m < i {
      LowestIs(b, m);
    }
  }

  /** What mem_realloc relies on. */
  lemma ReallocFacts(next: seq<nat>, prev: seq<nat>, used: seq<bool>, l: Layout, size: nat, i: nat, n: nat)
    requires Links(next, prev, used, l, size) && Coalesced(l.busy) && i < |l.busy| && l.busy[i] && n < U32
    ensures Coalesced(Shrink(l, i, Rounded(n)).busy)
    ensures var l1, end := Shrink(l, i, Rounded(n)), l.off[i + 1];
      && |l1.off| == |l1.busy| + 1 && i < |l1.busy|
      && (Rounded(n) <= Room(l, i) ==> Ends(l, i, Rounded(n), l1.off[i + 1]))
      && Live(l1) == Live(l) - {(l.off[i], end)} + {(l.off[i], l1.off[i + 1])}
    ensures Rounded(n) >= MIN && Aligned(l.off[i] + HDR + Rounded(n)) && Room(l, i) <= size
    ensures l.off[i + 1] <= size && (!used[l.off[i + 1]] <==> i + 1 < |l.busy| && !l.busy[i + 1])
  {
    hide Nexts, Prevs, Rounded, Live;
    RoundedFits(n);
    AlignedSum(l.off[i], Rounded(n));
    assert WellFormed(l, size);
    ShrinkKeeps(l, i, Rounded(n), size);
    ShrinkLive(l, i, Rounded(n), size);
  }

  lemma MoveLowest(l: Layout, i: nat, at: nat)
    requires |l.off| == |l.busy| + 1 && i + 1 < |l.busy| && Ordered(l.off)
    requires LowestFree(l.busy) < |l.off|
    ensures l.off[i + 1 := at][LowestFree(l.busy)] == Redirect(l.off[LowestFree(l.busy)], l.off[i + 1], at)
  {
  }

  /** The block that mem_realloc splits off becomes the lowest free one exactly when it lies below it. */
  lemma ShrinkLowest(l: Layout, i: nat, at: nat)
    requires |l.off| == |l.busy| + 1 && i < |l.busy| && l.busy[i] && Ordered(l.off) && l.off[i] < at < l.off[i + 1]
    ensures var m := LowestFree(l.busy);
      var l1 := Layout(l.off[..i + 1] + [at] + l.off[i + 1..], l.busy[..i] + [true, false] + l.busy[i + 1..]);
      && m <= |l.busy| && LowestFree(l1.busy) < |l1.off|
      && l1.off[LowestFree(l1.busy)] == if at < l.off[m] then at else l.off[m]
  {
    hide LowestFree;
    var m := LowestFree(l.busy);
    LowestFreeIs(l.busy);
    var l1 := Layout(l.off[..i + 1] + [at] + l.off[i + 1..], l.busy[..i] + [true, false] + l.busy[i + 1..]);
    assert forall k :: 0 <= k < i ==> l1.busy[k] == l.busy[k];
    LowestIs(l1.busy, if m < i then m else i + 1);
  }

  /** The block that mem_malloc carved is used and starts where it was. */
  lemma CarvedBlock(l: Layout, i: nat, n: nat, size: nat)
    requires WellFormed(l, size) && i < |l.busy| && Fits(l, i, n)
    ensures var l1 := Carve(l, i, n);
      |l1.off| == |l1.busy| + 1 && i < |l1.busy| && l1.busy[i] && l1.off[i] == l.off[i] && Release(l1, i) == l
    ensures l.off[i] + HDR < size
  {
    hide Release;
    ReleaseUndoesCarve(l, i, n, size);
    TiledOrdered(l, size);
  }

  class Memory {
    /** MEM_SIZE_ALIGNED: the offset of ram_end */
    const size: nat
    const next: array<nat>
    const prev: array<nat>
    const used: array<bool>
    var lfree: nat
    ghost var l: Layout

    ghost predicate Linked()
      reads this, next, prev, used
    {
      && next != prev
      && next.Length == prev.Length == used.Length == size + 1
      && |l.off| == |l.busy| + 1
      && Links(next[..], prev[..], used[..], l, size)
    }

    ghost predicate Lowest()
      reads this
    {
      LowestFree(l.busy) < |l.off| && lfree == l.off[LowestFree(l.busy)]
    }

    ghost predicate Valid()
      reads this, next, prev, used
    {
      Linked() && Coalesced(l.busy) && Lowest()
    }

    /** mem_init */
    constructor (size: nat)
      requires Aligned(size) && size >= HDR + MIN
      ensures Valid() && this.size == size && l == Layout([0, size], [false])
      ensures fresh(next) && fresh(prev) && fresh(used)
    {
      this.size := size;
      next := new nat[size + 1];
      prev := new nat[size + 1];
      used := new bool[size + 1];
      lfree := 0;
      l := Layout([0, size], [false]);
      new;
      next[0], prev[0], used[0] := size, 0, false;
      used[size], next[size], prev[size] := true, size, size;
      LowestIs([false], 0);
    }

    method MergeNext(mem: nat, nmem: nat, ghost i: nat)
      requires Linked() && i + 1 < |l.busy| && l.off[i] == mem && l.off[i + 1] == nmem
      modifies this`l, next, prev
      ensures Linked() && l == Merge(old(l), i)
    {
      hide Links;
      FieldsAt(next[..], prev[..], used[..], l, size, i + 1);
      MergeLinks(next[..], prev[..], used[..], l, size, i);
      ghost var next0, prev0 := next[..], prev[..];
      var nn := next[nmem];
      next[mem] := nn;
      prev[nn] := mem;
      assert next[..] == next0[mem := nn] && prev[..] == prev0[nn := mem];
      l := Merge(l, i);
    }

    /** The first half of plug_holes: combine with the next block. */
    method PlugNext(mem: nat, ghost i: nat)
      requires Linked() && Lowest() && i < |l.busy| && l.off[i] == mem && !l.busy[i]
      modifies this`l, this`lfree, next, prev
      ensures Linked() && Lowest() && l == PlugForward(old(l), i)
    {
      hide Links, Merge, LowestFree, Tiled, Ordered;
      FieldsAt(next[..], prev[..], used[..], l, size, i);
      var nmem := next[mem];
      if mem != nmem && !used[nmem] && nmem != size {
        LinksAreTiled(next[..], prev[..], used[..], l, size);
        MergeLowest(l, i);
        lfree := Redirect(lfree, nmem, mem);
        MergeNext(mem, nmem, i);
      }
    }

    /** The second half of plug_holes: combine with the previous block. */
    method PlugPrev(mem: nat, ghost i: nat)
      requires Linked() && Lowest() && i < |l.busy| && l.off[i] == mem && !l.busy[i]
      modifies this`l, this`lfree, next, prev
      ensures Linked() && Lowest() && l == PlugBackward(old(l), i)
    {
      hide Links, Merge, LowestFree, Tiled, Ordered;
      FieldsAt(next[..], prev[..], used[..], l, size, i);
      var pmem := prev[mem];
      if pmem != mem && !used[pmem] {
        LinksAreTiled(next[..], prev[..], used[..], l, size);
        MergeLowest(l, i - 1);
        lfree := Redirect(lfree, mem, pmem);
        MergeNext(pmem, mem, i - 1);
      }
    }

    /** plug_holes */
    method PlugHoles(mem: nat, ghost i: nat)
      requires Linked() && Lowest() && i < |l.busy| && l.off[i] == mem && !l.busy[i] && CoalescedExcept(l.busy, i)
      modifies this`l, this`lfree, next, prev
      ensures Valid() && l == PlugBackward(PlugForward(old(l), i), i)
    {
      hide Links, Merge, Coalesced, CoalescedExcept, LowestFree, Tiled, Bounded;
      LinksAreTiled(next[..], prev[..], used[..], l, size);
      ForwardKeeps(l, i, size);
      BackwardKeeps(PlugForward(l, i), i, size);
      ForwardStart(l, i);
      PlugNext(mem, i);
      PlugPrev(mem, i);
    }

    /** mem_free up to plug_holes: the header and lfree. */
    method ClearUsed(mem: nat, ghost i: nat)
      requires Valid() && i < |l.busy| && l.busy[i] && mem == l.off[i]
      modifies this`l, this`lfree, used
      ensures Linked() && Lowest() && l == old(l).(busy := old(l).busy[i := false])
    {
      hide Links, LowestFree, Tiled, Bounded, Coalesced;
      FieldsAt(next[..], prev[..], used[..], l, size, i);
      FlagLinks(next[..], prev[..], used[..], l, size, i, false);
      LinksAreTiled(next[..], prev[..], used[..], l, size);
      FreedLowest(l, i, size);
      ghost var used0 := used[..];
      used[mem] := false;
      assert used[..] == used0[mem := false];
      if mem < lfree {
        lfree := mem;
      }
      l := l.(busy := l.busy[i := false]);
    }

    /** mem_free of NULL, of a used block, or of a pointer outside the heap, which is only reported. */
    method MemFree(rmem: Option<int>, ghost i: nat)
      requires Valid()
      requires rmem.Some? && 0 <= rmem.value < size ==> i < |l.busy| && l.busy[i] && rmem.value == l.off[i] + HDR
      modifies this`l, this`lfree, next, prev, used
      ensures Valid()
      ensures l == if rmem.Some? && 0 <= rmem.value < size then Release(old(l), i) else old(l)
      ensures l == if rmem.Some? && 0 <= rmem.value < size then Apply(old(l), size, Free(i)) else old(l)
      ensures rmem.Some? && 0 <= rmem.value < size ==> Live(l) == Live(old(l)) - {(old(l).off[i], old(l).off[i + 1])}
    {
      hide Links, LowestFree, PlugForward, PlugBackward, Coalesced, CoalescedExcept, Tiled, Live, Bounded;
      if rmem == None || rmem.value < 0 || rmem.value >= size {
        return;
      }
      LinksAreTiled(next[..], prev[..], used[..], l, size);
      ReleaseLive(l, i, size);
      FreedExcept(l.busy, i);
      var mem := rmem.value - HDR;
      ClearUsed(mem, i);
      PlugHoles(mem, i);
    }

    /** The search loop of mem_malloc; the result is size when no block fits. */
    method Scan(n: nat) returns (ptr: nat, ghost i: nat)
      requires Valid() && MIN <= n <= size
      ensures i <= |l.busy| && i == FirstFit(l, n, 0)
      ensures ptr == l.off[i]
    {
      hide Links, LowestFree, Coalesced;
      LowestFreeIs(l.busy);
      i := LowestFree(l.busy);
      FitsSkip(l, n, 0, i);
      ptr := lfree;
      while ptr < size - n
        invariant i <= |l.busy| && ptr == l.off[i]
        invariant FirstFit(l, n, 0) == FirstFit(l, n, i)
        decreases |l.busy| - i
      {
        assert i < |l.busy| by { LinksAreTiled(next[..], prev[..], used[..], l, size); }
        FieldsAt(next[..], prev[..], used[..], l, size, i);
        if !used[ptr] && next[ptr] - (ptr + HDR) >= n {
          return;
        }
        ptr := next[ptr];
        i := i + 1;
      }
      LinksAreTiled(next[..], prev[..], used[..], l, size);
      NoFitAbove(l, size, n, i);
      i := |l.busy|;
      ptr := size;
    }

    /** A free header at `at` after block i, which becomes used. */
    method SplitBlock(ptr: nat, at: nat, ghost i: nat)
      requires Linked() && i < |l.busy| && l.off[i] == ptr && Aligned(at)
      requires ptr + HDR + MIN <= at && at + HDR + MIN <= l.off[i + 1]
      modifies this`l, next, prev, used
      ensures Linked()
      ensures l == Layout(old(l).off[..i + 1] + [at] + old(l).off[i + 1..],
                          old(l).busy[..i] + [true, false] + old(l).busy[i + 1..])
    {
      hide Links, Aligned;
      FieldsAt(next[..], prev[..], used[..], l, size, i);
      ghost var next0, prev0, used0 := next[..], prev[..], used[..];
      var end: nat := next[ptr];
      used[at] := false;
      next[at] := end;
      prev[at] := ptr;
      next[ptr] := at;
      used[ptr] := true;
      if next[at] != size {
        prev[next[at]] := at;
      }
      ghost var prev1: seq<nat> := if end != size then prev0[at := ptr][end := at] else prev0[at := ptr];
      ghost var next1: seq<nat> := next0[at := end];
      assert next[..] == next1[ptr := at];
      assert used[..] == used0[at := false][ptr := true];
      assert prev[..] == prev1;
      SplitLinks(next0, prev0, used0, l, size, i, at, true, prev1);
      l := Layout(l.off[..i + 1] + [at] + l.off[i + 1..], l.busy[..i] + [true, false] + l.busy[i + 1..]);
    }

    /** The loop of mem_malloc that looks for the next lowest free block from `lfree`. */
    method Advance(ghost j: nat)
      requires Linked() && j <= |l.busy| && lfree == l.off[j] && forall k :: 0 <= k < j ==> l.busy[k]
      modifies this`lfree
      ensures Lowest()
    {
      hide Links;
      ghost var m := j;
      LinksAreTiled(next[..], prev[..], used[..], l, size);
      while used[lfree] && lfree != size
        invariant m <= |l.busy| && lfree == l.off[m] && forall k :: 0 <= k < m ==> l.busy[k]
        decreases |l.busy| - m
      {
        FieldsAt(next[..], prev[..], used[..], l, size, m);
        lfree := next[lfree];
        m := m + 1;
      }
      if m < |l.busy| {
        FieldsAt(next[..], prev[..], used[..], l, size, m);
      }
      LowestIs(l.busy, m);
    }

    /** Mark block i used, splitting off the remainder when it can hold a block of its own. */
    method CarveBlock(ptr: nat, n: nat, ghost i: nat)
      requires Linked() && i < |l.busy| && l.off[i] == ptr && Fits(l, i, n) && Aligned(n) && Aligned(ptr) && n >= MIN
      modifies this`l, next, prev, used
      ensures Linked() && l == Carve(old(l), i, n)
    {
      hide Links;
      FieldsAt(next[..], prev[..], used[..], l, size, i);
      if next[ptr] - (ptr + HDR) >= n + HDR + MIN {
        AlignedSum(ptr, n);
        SplitBlock(ptr, ptr + HDR + n, i);
      } else {
        FlagLinks(next[..], prev[..], used[..], l, size, i, true);
        ghost var used0 := used[..];
        used[ptr] := true;
        assert used[..] == used0[ptr := true];
        l := l.(busy := l.busy[i := true]);
      }
    }

    /** mem_malloc on the block found by the search */
    method Take(ptr: nat, n: nat, ghost i: nat)
      requires Valid() && i < |l.busy| && l.off[i] == ptr && Fits(l, i, n) && Aligned(n) && n >= MIN
      modifies this`l, this`lfree, next, prev, used
      ensures Valid() && l == Carve(old(l), i, n)
      ensures i + 1 < |l.off| && Ends(old(l), i, n, l.off[i + 1])
      ensures Live(l) == Live(old(l)) + {(old(l).off[i], l.off[i + 1])}
    {
      hide Links, LowestFree, Carve, Coalesced, Tiled, Bounded, Aligned, Live, Ends, Gaps;
      LinksAreTiled(next[..], prev[..], used[..], l, size);
      CarveLive(l, i, n, size);
      CarveKeeps(l, i, n, size);
      CarveLowest(l, i, n, size);
      assert Aligned(ptr);
      ghost var m := LowestFree(l.busy);
      CarveBlock(ptr, n, i);
      if ptr == lfree {
        Advance(m);
      }
    }

    /** mem_malloc */
    method MemMalloc(n: nat) returns (p: Option<nat>, ghost i: nat)
      requires Valid() && n < U32
      modifies this`l, this`lfree, next, prev, used
      ensures Valid()
      ensures l == Apply(old(l), size, Malloc(n))
      ensures p.Some? <==> n > 0 && Available(old(l), Rounded(n))
      ensures p == None ==> l == old(l)
      ensures p.Some? ==>
        && i < |old(l).busy| && Fits(old(l), i, Rounded(n))
        && (forall j :: 0 <= j < i ==> !Fits(old(l), j, Rounded(n)))
        && p.value == old(l).off[i] + HDR && p.value % ALIGN == 0
        && l == Carve(old(l), i, Rounded(n))
        && i + 1 < |l.off| && Ends(old(l), i, Rounded(n), l.off[i + 1])
        && Live(l) == Live(old(l)) + {(old(l).off[i], l.off[i + 1])}
    {
      hide Links, LowestFree, Coalesced, Live, Ends, Carve, Available, Tiled, Ordered, Rounded;
      RoundedFits(n);
      LinksAreTiled(next[..], prev[..], used[..], l, size);
      AvailableIff(l, Rounded(n), size);
      i := 0;
      if n == 0 {
        return None, 0;
      }
      var sz := Rounded(n);
      if sz > size {
        return None, 0;
      }
      var ptr;
      ptr, i := Scan(sz);
      HeaderAt(l, size, i);
      if ptr == size {
        return None, i;
      }
      Take(ptr, sz, i);
      return Some(ptr + HDR), i;
    }

    /** mem_free of what mem_malloc just returned restores the layout and lfree. */
    method MallocThenFree(n: nat) returns (p: Option<nat>)
      requires Valid() && n < U32
      modifies this`l, this`lfree, next, prev, used
      ensures Valid() && l == old(l) && lfree == old(lfree)
    {
      hide Links, LowestFree, Coalesced, Tiled, Carve, Release;
      LinksAreTiled(next[..], prev[..], used[..], l, size);
      ghost var l0, i := l, 0;
      p, i := MemMalloc(n);
      if p.Some? {
        CarvedBlock(l0, i, Rounded(n), size);
        MemFree(p, i);
      }
    }

    /** The free header after block i moves down to `at`. */
    method MoveHeader(ptr: nat, at: nat, ghost i: nat)
      requires Linked() && i + 1 < |l.busy| && l.off[i] == ptr && !l.busy[i + 1] && Aligned(at)
      requires ptr + HDR + MIN <= at <= l.off[i + 1]
      modifies this`l, next, prev, used
      ensures Linked() && l == old(l).(off := old(l).off[i + 1 := at])
    {
      hide Links, Aligned;
      FieldsAt(next[..], prev[..], used[..], l, size, i);
      FieldsAt(next[..], prev[..], used[..], l, size, i + 1);
      ghost var next0, prev0, used0 := next[..], prev[..], used[..];
      var end: nat := next[next[ptr]];
      used[at] := false;
      next[at] := end;
      prev[at] := ptr;
      next[ptr] := at;
      if next[at] != size {
        prev[next[at]] := at;
      }
      ghost var next1: seq<nat> := next0[at := end];
      ghost var prev1: seq<nat> := if end != size then prev0[at := ptr][end := at] else prev0[at := ptr];
      assert next[..] == next1[ptr := at];
      assert used[..] == used0[at := false];
      assert prev[..] == prev1;
      MoveLinks(next0, prev0, used0, l, size, i, at, prev1);
      l := l.(off := l.off[i + 1 := at]);
    }

    /** mem_realloc when the next block is free: its header moves down to `at`. */
    method MoveBlock(ptr: nat, at: nat, ghost i: nat)
      requires Linked() && Lowest() && i + 1 < |l.busy| && l.off[i] == ptr && !l.busy[i + 1] && Aligned(at)
      requires ptr + HDR + MIN <= at <= l.off[i + 1]
      modifies this`l, this`lfree, next, prev, used
      ensures Linked() && Lowest() && l == old(l).(off := old(l).off[i + 1 := at])
    {
      hide Links, Aligned, LowestFree, Redirect, Tiled, Bounded;
      FieldsAt(next[..], prev[..], used[..], l, size, i);
      LinksAreTiled(next[..], prev[..], used[..], l, size);
      MoveLowest(l, i, at);
      lfree := Redirect(lfree, next[ptr], at);
      MoveHeader(ptr, at, i);
    }

    /** mem_realloc when the next block is used: the tail becomes a free block of its own. */
    method SplitTail(ptr: nat, at: nat, ghost i: nat)
      requires Linked() && Lowest() && i < |l.busy| && l.off[i] == ptr && l.busy[i] && Aligned(at)
      requires ptr + HDR + MIN <= at && at + HDR + MIN <= l.off[i + 1]
      modifies this`l, this`lfree, next, prev, used
      ensures Linked() && Lowest()
      ensures l == Layout(old(l).off[..i + 1] + [at] + old(l).off[i + 1..],
                          old(l).busy[..i + 1] + [false] + old(l).busy[i + 1..])
    {
      hide Links, LowestFree, Tiled, Bounded, Aligned;
      LinksAreTiled(next[..], prev[..], used[..], l, size);
      ShrinkLowest(l, i, at);
      assert l.busy[..i] + [true, false] + l.busy[i + 1..] == l.busy[..i + 1] + [false] + l.busy[i + 1..];
      SplitBlock(ptr, at, i);
      if at < lfree {
        lfree := at;
      }
    }

    /** mem_realloc of a used block, or of a pointer outside the heap, which it gives back; it can only shrink. */
    method MemRealloc(rmem: int, n: nat, ghost i: nat) returns (p: Option<int>)
      requires Valid() && n < U32
      requires 0 <= rmem < size ==> i < |l.busy| && l.busy[i] && rmem == l.off[i] + HDR
      modifies this`l, this`lfree, next, prev, used
      ensures Valid()
      ensures l == if 0 <= rmem < size then Apply(old(l), size, Realloc(i, n)) else old(l)
      ensures 0 <= rmem < size ==>
        && l == Shrink(old(l), i, Rounded(n))
        && p == (if rmem + Rounded(n) <= old(l).off[i + 1] then Some(rmem) else None)
        && (p == None ==> l == old(l))
        && i + 1 < |l.off| && (p.Some? ==> Ends(old(l), i, Rounded(n), l.off[i + 1]))
        && Live(l) == Live(old(l)) - {(old(l).off[i], old(l).off[i + 1])} + {(old(l).off[i], l.off[i + 1])}
      ensures rmem < 0 || rmem >= size ==> l == old(l) && p == if Rounded(n) > size then None else Some(rmem)
    {
      hide Links, LowestFree, Coalesced, Rounded, Aligned, Live, Ends;
      if rmem < 0 || rmem >= size {
        return if Rounded(n) > size then None else Some(rmem);
      }
      ReallocFacts(next[..], prev[..], used[..], l, size, i, n);
      FieldsAt(next[..], prev[..], used[..], l, size, i);
      var newsize := Rounded(n);
      if newsize > size {
        return None;
      }
      var ptr := rmem - HDR;
      var room := next[ptr] - ptr - HDR;
      if newsize > room {
        return None;
      }
      if newsize == room {
        return Some(rmem);
      }
      var at := ptr + HDR + newsize;
      if !used[next[ptr]] {
        MoveBlock(ptr, at, i);
      } else if newsize + HDR + MIN <= room {
        SplitTail(ptr, at, i);
      }
      return Some(rmem);
    }
  }
}
