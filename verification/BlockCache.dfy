/**
 The write-back block cache of the file server (fs/bc.c): disk blocks are faulted
 in on first use, the processor sets PTE_D on every store, and dirty pages are
 written back by flush_block.
 */
module BlockCache {
  import opened Wrappers
  import opened Common

  const DISKMAP: nat := 0x10000000
  const DISKSIZE: nat := 0xC0000000

  /** `page` holds the mapped blocks, `dirty` those with PTE_D set, `free` those marked free in the bitmap. */
  datatype State = State(disk: seq<Block>, page: map<nat, Block>, dirty: set<nat>, free: set<nat>)

  /** What the file server sees in block b. */
  function View(s: State, b: nat): Block
    requires b < |s.disk|
  {
    if b in s.page then s.page[b] else s.disk[b]
  }

  /** Only blocks below s_nblocks are cached, and a clean page equals its disk block. */
  ghost predicate Inv(s: State) {
    && (forall b :: b in s.page ==> b < |s.disk|)
    && (forall b :: b in s.dirty ==> b in s.page)
    && (forall b :: b in s.page && b !in s.dirty ==> s.page[b] == s.disk[b])
  }

  ghost predicate SameView(s: State, t: State) {
    |t.disk| == |s.disk| && forall b :: 0 <= b < |s.disk| ==> View(t, b) == View(s, b)
  }

  // ------------------------------------------------------------- single steps

  /** bc_pgfault reads the block before it looks at the bitmap. */
  function FaultIn(s: State, b: nat): State
    requires b < |s.disk|
  {
    State(s.disk, s.page[b := s.disk[b]], s.dirty - {b}, s.free)
  }

  function Flushed(s: State, b: nat): State {
    if b in s.page && b in s.dirty && b < |s.disk|
    then State(s.disk[b := s.page[b]], s.page, s.dirty - {b}, s.free)
    else s
  }

  /** A memory access to block b: None if the fault handler panics. */
  function Touched(s: State, b: nat): Option<State> {
    if b in s.page then Some(s)
    else if b < |s.disk| && b !in s.free then Some(FaultIn(s, b))
    else None
  }

  function Put(block: Block, i: nat, v: nat): Block {
    if i < |block| then block[i := v] else block
  }

  /** The processor sets PTE_D as it stores. */
  function Stored(s: State, b: nat, i: nat, v: nat): State
    requires b in s.page
  {
    State(s.disk, s.page[b := Put(s.page[b], i, v)], s.dirty + {b}, s.free)
  }

  /** fs_sync from block i on. */
  function SyncedFrom(s: State, i: nat): State
    decreases |s.disk| - i
  {
    if i < |s.disk| then SyncedFrom(Flushed(s, i), i + 1) else s
  }

  /** Faulting a block in adds it, clean, and changes no view. */
  lemma FaultInKeeps(s: State, b: nat)
    requires Inv(s) && b < |s.disk| && b !in s.page
    ensures var t := FaultIn(s, b);
      && Inv(t) && SameView(s, t)
      && t.disk == s.disk && t.dirty == s.dirty && t.page.Keys == s.page.Keys + {b} && t.free == s.free
  {
  }

  /** Flushing puts that block and no other on the disk, leaves it clean, and changes no view. */
  lemma FlushKeeps(s: State, b: nat)
    requires Inv(s)
    ensures Inv(Flushed(s, b)) && SameView(s, Flushed(s, b))
    ensures var t := Flushed(s, b); t.dirty == s.dirty - {b} && t.page == s.page && t.free == s.free
    ensures b < |s.disk| ==> Flushed(s, b).disk[b] == View(s, b)
    ensures forall c :: 0 <= c < |s.disk| && c != b ==> Flushed(s, b).disk[c] == s.disk[c]
  {
  }

  lemma {:induction false} SyncKeeps(s: State, i: nat)
    requires Inv(s)
    ensures var t := SyncedFrom(s, i);
      && Inv(t) && SameView(s, t)
      && (forall b :: i <= b < |s.disk| ==> t.disk[b] == View(s, b))
      && (forall b :: 0 <= b < i && b < |s.disk| ==> t.disk[b] == s.disk[b])
      && t.dirty == (set b | b in s.dirty && b < i) && t.page == s.page && t.free == s.free
    decreases |s.disk| - i
  {
    if i < |s.disk| {
      FlushKeeps(s, i);
      SyncKeeps(Flushed(s, i), i + 1);
    }
  }

  // --------------------------------------------------------------------- runs

  datatype Op = Load(b: nat) | Store(b: nat, i: nat, v: nat) | Flush(b: nat) | Sync | Alloc(b: nat) | Free(b: nat)

  function Apply(s: State, op: Op): Option<State> {
    match op
    case Load(b) => Touched(s, b)
    case Store(b, i, v) => (match Touched(s, b) case None => None case Some(t) =>
      if b in t.page then Some(Stored(t, b, i, v)) else None)
    case Flush(b) => Some(Flushed(s, b))
    case Sync => Some(SyncedFrom(s, 1))
    case Alloc(b) => Some(s.(free := s.free - {b}))
    case Free(b) => Some(s.(free := s.free + {b}))
  }

  function Run(s: State, ops: seq<Op>): Option<State> {
    if ops == [] then Some(s)
    else match Run(s, ops[..|ops| - 1])
      case None => None
      case Some(t) => Apply(t, ops[|ops| - 1])
  }

  /** Plain memory without a disk: only stores change it. */
  function Flat(mem: seq<Block>, ops: seq<Op>): (r: seq<Block>)
    ensures |r| == |mem|
  {
    if ops == [] then mem
    else
      var m := Flat(mem, ops[..|ops| - 1]);
      var op := ops[|ops| - 1];
      if op.Store? && op.b < |m| && op.i < |m[op.b]|
      then
        var block: Block := m[op.b][op.i := op.v];
        m[op.b := block]
      else m
  }

  ghost predicate Sees(s: State, mem: seq<Block>) {
    |mem| == |s.disk| && forall b :: 0 <= b < |mem| ==> View(s, b) == mem[b]
  }

  lemma TouchKeeps(s: State, b: nat)
    requires Inv(s) && Touched(s, b).Some?
    ensures Inv(Touched(s, b).value) && SameView(s, Touched(s, b).value) && b in Touched(s, b).value.page
  {
  }

  lemma StoreSees(s: State, b: nat, i: nat, v: nat, mem: seq<Block>)
    requires Inv(s) && b in s.page && Sees(s, mem)
    ensures Inv(Stored(s, b, i, v)) && Sees(Stored(s, b, i, v), mem[b := Put(mem[b], i, v)])
  {
  }

  /** Through any run that does not panic, the cache is plain memory. */
  lemma {:induction false} RunTransparent(s: State, ops: seq<Op>, mem: seq<Block>)
    requires Inv(s) && Sees(s, mem) && Run(s, ops).Some?
    ensures Inv(Run(s, ops).value) && Sees(Run(s, ops).value, Flat(mem, ops))
  {
    if ops != [] {
      var ops0, op := ops[..|ops| - 1], ops[|ops| - 1];
      RunTransparent(s, ops0, mem);
      var t := Run(s, ops0).value;
      match op {
        case Load(b) => TouchKeeps(t, b);
        case Store(b, i, v) =>
          TouchKeeps(t, b);
          StoreSees(Touched(t, b).value, b, i, v, Flat(mem, ops0));
        case Flush(b) => FlushKeeps(t, b);
        case Sync => SyncKeeps(t, 1);
        case Alloc(b) =>
        case Free(b) =>
      }
    }
  }

  /** A restart forgets every cached page. */
  function Restarted(s: State): State {
    State(s.disk, map[], {}, s.free)
  }

  /** A restart straight after fs_sync loses no store to any block but block 0. */
  lemma SyncSurvivesRestart(s: State, ops: seq<Op>, mem: seq<Block>)
    requires Inv(s) && Sees(s, mem) && Run(s, ops + [Sync]).Some?
    ensures var t := Restarted(Run(s, ops + [Sync]).value);
      Inv(t) && t.page == map[] && |t.disk| == |mem| && forall b :: 1 <= b < |mem| ==> View(t, b) == Flat(mem, ops)[b]
  {
    assert (ops + [Sync])[..|ops|] == ops;
    RunTransparent(s, ops, mem);
    SyncKeeps(Run(s, ops).value, 1);
  }

  // ------------------------------------------------------------------- panics

  predicate Accesses(op: Op, b: nat) {
    (op.Load? || op.Store?) && op.b == b
  }

  /** Block b is in the cache after `ops`. */
  ghost predicate Seen(s: State, ops: seq<Op>, b: nat) {
    b in s.page || exists k :: 0 <= k < |ops| && Accesses(ops[k], b)
  }

  /** The free blocks after `ops`. */
  function FreeAfter(free: set<nat>, ops: seq<Op>): set<nat> {
    if ops == [] then free
    else
      var before := FreeAfter(free, ops[..|ops| - 1]);
      match ops[|ops| - 1]
      case Alloc(b) => before - {b}
      case Free(b) => before + {b}
      case _ => before
  }

  lemma {:induction false} SyncFrame(s: State, i: nat)
    ensures var t := SyncedFrom(s, i); |t.disk| == |s.disk| && t.page == s.page && t.free == s.free
    decreases |s.disk| - i
  {
    if i < |s.disk| {
      SyncFrame(Flushed(s, i), i + 1);
    }
  }

  lemma SeenMore(s: State, ops: seq<Op>, op: Op, b: nat)
    ensures Seen(s, ops + [op], b) <==> Seen(s, ops, b) || Accesses(op, b)
  {
    var all := ops + [op];
    assert all[|ops|] == op && forall k :: 0 <= k < |ops| ==> all[k] == ops[k];
    if Seen(s, ops, b) && b !in s.page {
      var k :| 0 <= k < |ops| && Accesses(ops[k], b);
      assert Accesses(all[k], b);
    } else if Accesses(op, b) {
      assert Accesses(all[|ops|], b);
    }
  }

  ghost predicate CachedAs(s: State, ops: seq<Op>, t: State) {
    |t.disk| == |s.disk| && t.free == FreeAfter(s.free, ops) && forall b :: b in t.page <==> Seen(s, ops, b)
  }

  /** What one operation does to the set of cached blocks. */
  lemma OneMore(t: State, op: Op)
    requires Apply(t, op).Some?
    ensures var t1 := Apply(t, op).value;
      && |t1.disk| == |t.disk| && (forall b :: b in t1.page <==> b in t.page || Accesses(op, b))
      && t1.free == (if op.Alloc? then t.free - {op.b} else if op.Free? then t.free + {op.b} else t.free)
  {
    hide SyncedFrom;
    SyncFrame(t, 1);
  }

  lemma FreeAfterMore(free: set<nat>, ops: seq<Op>, op: Op)
    ensures var before := FreeAfter(free, ops);
      FreeAfter(free, ops + [op]) ==
      (if op.Alloc? then before - {op.b} else if op.Free? then before + {op.b} else before)
  {
    assert (ops + [op])[..|ops|] == ops;
  }

  lemma CachedMore(s: State, ops: seq<Op>, t: State, op: Op)
    requires CachedAs(s, ops, t) && Apply(t, op).Some?
    ensures CachedAs(s, ops + [op], Apply(t, op).value)
  {
    hide Seen, FreeAfter, Apply, Accesses;
    OneMore(t, op);
    FreeAfterMore(s.free, ops, op);
    forall b: nat ensures Seen(s, ops + [op], b) <==> Seen(s, ops, b) || Accesses(op, b) {
      SeenMore(s, ops, op, b);
    }
  }

  /** The cache never drops a block. */
  lemma {:induction false} RunCaches(s: State, ops: seq<Op>)
    requires Run(s, ops).Some?
    ensures CachedAs(s, ops, Run(s, ops).value)
  {
    if ops != [] {
      var ops0 := ops[..|ops| - 1];
      hide Apply, CachedAs;
      RunCaches(s, ops0);
      CachedMore(s, ops0, Run(s, ops0).value, ops[|ops| - 1]);
      assert ops == ops0 + [ops[|ops| - 1]];
    }
  }

  /** Operation k is the first access to a block that is out of range or free at that time. */
  ghost predicate PanicsAt(s: State, ops: seq<Op>, k: nat)
    requires k < |ops|
  {
    var op := ops[k];
    && (op.Load? || op.Store?) && !Seen(s, ops[..k], op.b)
    && (op.b >= |s.disk| || op.b in FreeAfter(s.free, ops[..k]))
  }

  /**
   A run panics exactly when it comes to such an access: a block that was in use once may
   be freed and is still there.
   */
  lemma {:induction false} RunPanicsIff(s: State, ops: seq<Op>)
    ensures Run(s, ops).None? <==> exists k :: 0 <= k < |ops| && PanicsAt(s, ops, k)
  {
    if ops != [] {
      var n := |ops| - 1;
      var ops0 := ops[..n];
      RunPanicsIff(s, ops0);
      forall k | 0 <= k < n ensures PanicsAt(s, ops, k) <==> PanicsAt(s, ops0, k) {
        assert ops0[..k] == ops[..k];
      }
      if Run(s, ops0).Some? {
        RunCaches(s, ops0);
        assert Apply(Run(s, ops0).value, ops[n]).None? <==> PanicsAt(s, ops, n);
      }
      hide PanicsAt;
    }
  }

  // ---------------------------------------------------------------- addresses

  /** diskaddr: None where it panics. */
  function Diskaddr(nblocks: nat, b: nat): Option<nat> {
    if b == 0 || b >= nblocks then None else Some(DISKMAP + b * BLKSIZE)
  }

  predicate InDiskMap(addr: nat) {
    DISKMAP <= addr < DISKMAP + DISKSIZE
  }

  function Blockno(addr: nat): nat
    requires InDiskMap(addr)
  {
    (addr - DISKMAP) / BLKSIZE
  }

  /** Every address inside the page of a block leads back to the block. */
  lemma DiskaddrRoundTrip(nblocks: nat, b: nat, o: nat)
    requires nblocks <= DISKSIZE / BLKSIZE && o < BLKSIZE
    ensures Diskaddr(nblocks, b).Some? <==> 0 < b < nblocks
    ensures Diskaddr(nblocks, b).Some? ==>
      InDiskMap(Diskaddr(nblocks, b).value + o) && Blockno(Diskaddr(nblocks, b).value + o) == b
  {
  }

  /** The server's address space and disk, after fs_init. */
  class Cache {
    const nblocks: nat
    var disk: seq<Block>
    var page: map<nat, Block>
    var dirty: set<nat>
    var free: set<nat>

    function Now(): State
      reads this
    {
      State(disk, page, dirty, free)
    }

    ghost predicate Valid()
      reads this
    {
      |disk| == nblocks <= DISKSIZE / BLKSIZE && Inv(Now())
    }

    constructor (blocks: seq<Block>, marked: set<nat>)
      requires |blocks| <= DISKSIZE / BLKSIZE
      ensures Valid() && Sees(Now(), blocks) && disk == blocks && free == marked
    {
      nblocks, disk, page, dirty, free := |blocks|, blocks, map[], {}, marked;
    }

    /** The fault handler on a page that is not present; false where it panics. */
    method BcPgfault(addr: nat) returns (ok: bool)
      requires Valid() && (InDiskMap(addr) ==> Blockno(addr) !in page)
      modifies this`page, this`dirty
      ensures Valid() && SameView(old(Now()), Now())
      ensures ok <==> InDiskMap(addr) && Blockno(addr) < nblocks && Blockno(addr) !in free
      ensures ok ==> Touched(old(Now()), Blockno(addr)) == Some(Now())
      ensures dirty == old(dirty) && (ok ==> page.Keys == old(page.Keys) + {Blockno(addr)})
    {
      if addr < DISKMAP || addr >= DISKMAP + DISKSIZE {
        return false;
      }
      var b := Blockno(addr);
      if b >= nblocks {
        return false;
      }
      FaultInKeeps(Now(), b);
      page, dirty := page[b := []], dirty - {b};        // sys_page_alloc
      page, dirty := page[b := disk[b]], dirty + {b};   // ide_read stores into the page
      dirty := dirty - {b};                             // sys_page_map to itself clears PTE_D
      assert Now() == FaultIn(old(Now()), b);
      ok := b !in free;
    }

    /** A store by the server to byte i of the block at addr. */
    method Write(addr: nat, i: nat, v: nat) returns (ok: bool)
      requires Valid() && InDiskMap(addr)
      modifies this`page, this`dirty
      ensures Valid()
      ensures ok <==> Apply(old(Now()), Store(Blockno(addr), i, v)).Some?
      ensures ok ==> Apply(old(Now()), Store(Blockno(addr), i, v)) == Some(Now())
      ensures !ok ==> SameView(old(Now()), Now())
    {
      var b := Blockno(addr);
      ok := true;
      if b !in page {
        ok := BcPgfault(addr);
      }
      if ok {
        page, dirty := page[b := Put(page[b], i, v)], dirty + {b};
      }
    }

    method FlushBlock(addr: nat) returns (ok: bool)
      requires Valid()
      modifies this`disk, this`dirty
      ensures Valid() && (ok <==> InDiskMap(addr))
      ensures Now() == if ok then Flushed(old(Now()), Blockno(addr)) else old(Now())
      ensures SameView(old(Now()), Now())
      ensures ok ==>
        && dirty == old(dirty) - {Blockno(addr)}
        && (Blockno(addr) < nblocks ==> disk == old(disk)[Blockno(addr) := View(old(Now()), Blockno(addr))])
    {
      if addr < DISKMAP || addr >= DISKMAP + DISKSIZE {
        return false;
      }
      var b := Blockno(addr);
      FlushKeeps(Now(), b);
      if b in page && b in dirty {
        disk := disk[b := page[b]];   // ide_write
        dirty := dirty - {b};         // sys_page_map to itself clears PTE_D
      }
      ok := true;
    }

    /** fs_sync: no call in it panics, the view stays, and every block from 1 on reaches the disk. */
    method FsSync()
      requires Valid()
      modifies this`disk, this`dirty
      ensures Valid() && Now() == SyncedFrom(old(Now()), 1) && SameView(old(Now()), Now())
      ensures forall b :: 1 <= b < nblocks ==> disk[b] == View(old(Now()), b)
      ensures nblocks > 0 ==> disk[0] == old(disk[0])
      ensures dirty <= {0}
    {
      SyncKeeps(Now(), 1);
      var i := 1;
      while i < nblocks
        invariant i >= 1 && Valid() && SyncedFrom(Now(), i) == SyncedFrom(old(Now()), 1)
      {
        DiskaddrRoundTrip(nblocks, i, 0);
        var addr := Diskaddr(nblocks, i).value;
        var ok := FlushBlock(addr);
        i := i + 1;
      }
    }
  }
}
