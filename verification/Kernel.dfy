/**
 The kernel's page allocator, page tables, environments and memory system calls
 (kern/pmap.c, kern/env.c, kern/syscall.c), updating physical memory in place.
 Every method is proved against the flat accounting of module Vm.
 */
module Kernel {
  import opened Wrappers
  import opened Common
  import opened Mmu
  import opened Vm
  import opened PageTables

  datatype Env = Env(id: int, parent: int, status: Status, pgdir: Option<nat>)

  datatype Code = Ok | Inval | BadEnv | NoMem | NoFreeEnv

  lemma HeadIsFirst(link: seq<Option<nat>>, head: Option<nat>, xs: seq<nat>)
    requires Listed(link, head, xs)
    ensures head == At(xs, 0)
  {
  }

  /** Unlinking the head of page_free_list. */
  lemma PopFree(r: Ram, s: State, held: multiset<nat>, loose: set<nat>, link: seq<Option<nat>>, head: Option<nat>)
    requires During(r, s, held, loose) && Listed(link, head, s.free) && |link| == r.npages && s.free != []
    ensures var f := s.free[0];
      && During(r, Take(s), held, loose + {f})
      && r.Usable(f)
      && Listed(link[f := None], link[f], Take(s).free)
      && (forall e :: e in s.dirs ==> s.dirs[e] != f)
      && (forall k :: k in s.tabs ==> s.tabs[k] != f)
  {
    hide Shape, Count;
    TakeKeeps(r, s, held, loose);
    ListedPop(link, head, s.free);
    hide Ledger, Listed;
    SameMaps(r, s, Take(s));
    UnusedHasNoRole(s, s.free[0]);
  }

  lemma LedgerLength(r: Ram, s: State, held: multiset<nat>, loose: set<nat>)
    requires Ledger(r, s, held, loose)
    ensures |s.ref| == r.npages
  {
  }

  lemma FirstUnused(r: Ram, s: State, held: multiset<nat>, loose: set<nat>)
    requires During(r, s, held, loose) && s.free != []
    ensures r.Usable(s.free[0]) && |s.ref| == r.npages
    ensures forall e :: e in s.dirs ==> s.dirs[e] != s.free[0]
    ensures forall k :: k in s.tabs ==> s.tabs[k] != s.free[0]
  {
    hide Shape, Count;
    TakeKeeps(r, s, held, loose);
    UnusedHasNoRole(s, s.free[0]);
  }

  /** Only frames in fs change. */
  ghost predicate SameBut(ram: seq<Page>, ram1: seq<Page>, fs: set<nat>) {
    |ram1| == |ram| && forall g :: 0 <= g < |ram| && g !in fs ==> ram1[g] == ram[g]
  }

  lemma SameSelf(ram: seq<Page>, fs: set<nat>)
    ensures SameBut(ram, ram, fs)
  {
  }

  lemma TwoStores(ram: seq<Page>, s: State, dir: nat, i: nat, x: Entry)
    requires s.free != [] && s.free[0] < |ram| && dir < |ram| && i < |ram[s.free[0] := ZEROS][dir]|
    ensures SameBut(ram, Store(ram[s.free[0] := ZEROS], dir, i, x), {dir} + FirstFree(s))
  {
  }

  ghost function TabFrame(s: State, k: Tab): set<nat> {
    if k in s.tabs then {s.tabs[k]} else {}
  }

  ghost function FirstFree(s: State): set<nat> {
    if s.free != [] then {s.free[0]} else {}
  }

  /** Every frame that is mapped as a page keeps its words. */
  ghost predicate PagesKept(s: State, ram: seq<Page>, ram1: seq<Page>) {
    && |ram1| == |ram|
    && forall j :: j in s.pages && s.pages[j].frame < |ram| ==> ram1[s.pages[j].frame] == ram[s.pages[j].frame]
  }

  /** A mapped frame is no directory, no table and not free. */
  lemma PageApart(r: Ram, s: State, j: Slot, e: nat, k: Tab)
    requires Inv(r, s) && j in s.pages && e in s.dirs
    ensures s.pages[j].frame != s.dirs[e] && s.pages[j].frame !in TabFrame(s, k) && s.pages[j].frame !in s.free
  {
    hide Shape, Ledger;
    MappedFrameIsData(r, s, j);
  }

  /** So stores into those leave the pages alone. */
  lemma PagesApart(r: Ram, s: State, ram: seq<Page>, ram1: seq<Page>, e: nat, k: Tab, fs: set<nat>)
    requires Inv(r, s) && e in s.dirs && SameBut(ram, ram1, fs)
    requires forall f :: f in fs ==> f == s.dirs[e] || f in TabFrame(s, k) || f in s.free
    ensures PagesKept(s, ram, ram1)
  {
    hide Inv, TabFrame;
    forall j | j in s.pages && s.pages[j].frame < |ram| ensures ram1[s.pages[j].frame] == ram[s.pages[j].frame] {
      PageApart(r, s, j, e, k);
    }
  }

  /** The page mapped at k reads as zeros. */
  ghost predicate ZeroPage(s: State, ram: seq<Page>, k: Slot) {
    && k in s.pages && s.pages[k].frame < |ram|
    && (forall i :: 0 <= i < |ram[s.pages[k].frame]| ==> ram[s.pages[k].frame][i] == ZERO)
  }

  lemma KeptSame(s: State, ram: seq<Page>)
    ensures PagesKept(s, ram, ram)
  {
  }

  /** What page_alloc and page_insert do to the words of frames. */
  lemma AllocWords(r: Ram, s: State, ram: seq<Page>, ram1: seq<Page>, ram2: seq<Page>, e: nat, k: Tab, f: nat)
    requires Inv(r, s) && e in s.dirs && s.free != [] && f == s.free[0] < |ram| && ram1 == ram[f := ZEROS]
    requires SameBut(ram1, ram2, {s.dirs[e]} + TabFrame(Take(s), k) + FirstFree(Take(s)))
    ensures ram2[f] == ZEROS && |ram2| == |ram| && PagesKept(s, ram, ram2)
  {
    hide Inv, TabFrame, FirstFree, PagesKept;
    FirstIsOff(s, r, e, k);
    var fs := {s.dirs[e]} + TabFrame(Take(s), k) + FirstFree(Take(s));
    assert SameBut(ram, ram2, fs + {f});
    PagesApart(r, s, ram, ram2, e, k, fs + {f});
  }

  lemma FirstIsOff(s: State, r: Ram, e: nat, k: Tab)
    requires Inv(r, s) && s.free != [] && e in s.dirs
    ensures var f := s.free[0];
      f != s.dirs[e] && f !in TabFrame(Take(s), k) && f !in FirstFree(Take(s))
    ensures TabFrame(Take(s), k) == TabFrame(s, k) && forall x :: x in FirstFree(Take(s)) ==> x in s.free
  {
    hide Shape, Count;
    TakeKeeps(r, s, multiset{}, {});
    UnusedHasNoRole(s, s.free[0]);
  }

  lemma InsertKeeps(r: Ram, s: State, ram: seq<Page>, ram1: seq<Page>, e: nat, k: Tab)
    requires Inv(r, s) && e in s.dirs && SameBut(ram, ram1, {s.dirs[e]} + TabFrame(s, k) + FirstFree(s))
    ensures PagesKept(s, ram, ram1)
  {
    hide Inv, TabFrame, PagesKept, SameBut;
    PagesApart(r, s, ram, ram1, e, k, {s.dirs[e]} + TabFrame(s, k) + FirstFree(s));
  }

  lemma RemoveKeeps(r: Ram, s: State, ram: seq<Page>, ram1: seq<Page>, e: nat, k: Tab)
    requires Inv(r, s) && e in s.dirs && SameBut(ram, ram1, TabFrame(s, k))
    ensures PagesKept(s, ram, ram1)
  {
    hide Inv, TabFrame, PagesKept, SameBut;
    PagesApart(r, s, ram, ram1, e, k, TabFrame(s, k));
  }

  /** What sys_page_alloc does to the flat map. */
  lemma AllocFrame(r: Ram, s: State, k: Slot, perm: Flags)
    requires Inv(r, s) && UserSlot(s, k)
    ensures PageAllocCall(s, k, perm) == None <==> |s.free| < 1 + TableCost(s, k)
    ensures PageAllocCall(s, k, perm).Some? ==>
      var s1 := PageAllocCall(s, k, perm).value;
      && s.free != [] && OnlySlot(s, s1, k, Mapping(s.free[0], Or(perm, PTE_P)))
      && s1.dirs == s.dirs && k in s1.pages && s1.pages[k].frame == s.free[0]
  {
    hide Shape, Ledger, PageAllocCall, Or, Uses;
    PageAllocKeeps(r, s, k, perm);
  }

  lemma BootTables(ram: seq<Page>, kern: Page)
    requires forall f :: 0 <= f < |ram| ==> |ram[f]| == NPTENTRIES
    requires |kern| == NPDENTRIES
    ensures Decodes(ram, map[], map[], map[], kern)
  {
  }

  /** What is known about slot `k` of an environment whose directory is frame `dir`. */
  lemma WordsAt(r: Ram, s: State, ram: seq<Page>, kern: Page, k: Slot)
    requires Shape(r, s) && Decodes(ram, s.dirs, s.tabs, s.pages, kern)
    requires k.env in s.dirs && k.pdx < PDX_UTOP && k.ptx < NPTENTRIES
    ensures s.dirs[k.env] < |ram| && |ram[s.dirs[k.env]]| == NPDENTRIES
    ensures var pde := ram[s.dirs[k.env]][k.pdx];
      && (Present(pde) <==> Tab(k.env, k.pdx) in s.tabs)
      && (Present(pde) ==>
            && pde.frame == s.tabs[Tab(k.env, k.pdx)] && pde.frame < |ram| && |ram[pde.frame]| == NPTENTRIES
            && pde.frame != s.dirs[k.env]
            && (Present(ram[pde.frame][k.ptx]) <==> k in s.pages)
            && (k in s.pages ==> ram[pde.frame][k.ptx] == Entry(s.pages[k].frame, s.pages[k].flags)))
    ensures k in s.pages ==> Tab(k.env, k.pdx) in s.tabs
  {
  }

  lemma StoresCommute(ram: seq<Page>, f: nat, i: nat, x: Entry, g: nat, j: nat, y: Entry)
    requires f < |ram| && g < |ram| && f != g && i < |ram[f]| && j < |ram[g]|
    ensures Store(ram, f, i, x)[g] == ram[g] && Store(ram, g, j, y)[f] == ram[f]
    ensures Store(Store(ram, f, i, x), g, j, y) == Store(Store(ram, g, j, y), f, i, x)
  {
  }

  /** The two stores of page_insert: the table word `x`, then the directory word `y` with more flags. */
  lemma InsertStores(ram: seq<Page>, dirs: map<nat, nat>, tabs: map<Tab, nat>, pages: map<Slot, Mapping>, kern: Page,
                     k: Slot, t: nat, dir: nat, x: Entry, perm: Flags, y: Entry)
    requires Decodes(ram, dirs, tabs, pages, kern) && Apart(dirs, tabs)
    requires Tab(k.env, k.pdx) in tabs && tabs[Tab(k.env, k.pdx)] == t && k.env in dirs && dirs[k.env] == dir
    requires t < |ram| && dir < |ram| && t != dir && |ram[t]| == |ram[dir]| == NPTENTRIES
    requires k.ptx < NPTENTRIES && k.pdx < NPDENTRIES
    requires Present(ram[dir][k.pdx])
    requires x.flags == Or(perm, PTE_P)
    requires y.frame == ram[dir][k.pdx].frame && y.flags == Or(ram[dir][k.pdx].flags, perm)
    ensures Decodes(Store(Store(ram, t, k.ptx, x), dir, k.pdx, y), dirs, tabs,
                    pages[k := Mapping(x.frame, x.flags)], kern)
  {
    hide Decodes, Apart, Covers, Has, Or;
    CoversBits(ram[dir][k.pdx].flags, 0, perm);
    RaiseFlagsStore(ram, dirs, tabs, pages, kern, Tab(k.env, k.pdx), perm, y);
    StoresCommute(ram, t, k.ptx, x, dir, k.pdx, y);
    SetEntryStore(Store(ram, dir, k.pdx, y), dirs, tabs, pages, kern, k, Mapping(x.frame, x.flags));
  }

  /** A fresh frame of zeros becomes a table. */
  lemma NewTable(r: Ram, s: State, held: multiset<nat>, loose: set<nat>, ram: seq<Page>, kern: Page, k: Slot, dir: nat)
    requires During(r, s, held, loose) && |ram| == r.npages && Decodes(ram, s.dirs, s.tabs, s.pages, kern)
    requires k.env in s.dirs && s.dirs[k.env] == dir && k.pdx < PDX_UTOP && k.ptx < NPTENTRIES
    requires Tab(k.env, k.pdx) !in s.tabs
    ensures dir < |ram| && |ram[dir]| == NPDENTRIES
    ensures s.free != [] ==>
      var f, s1 := s.free[0], AddTable(s, Tab(k.env, k.pdx));
      && f < |ram| && f != dir && f < |s.ref| && During(r, s1, held, loose)
      && s1.ref == s.ref[f := s.ref[f] + 1] && s1.free == Take(s).free && s1.dirs == s.dirs && s1.pages == s.pages
      && Decodes(Store(ram[f := ZEROS], dir, k.pdx, Entry(f, PTE_P)), s1.dirs, s1.tabs, s1.pages, kern)
  {
    hide Shape, Ledger, Decodes;
    WordsAt(r, s, ram, kern, k);
    if s.free != [] {
      AddTableKeeps(r, s, Tab(k.env, k.pdx), held, loose);
      Nested(r, s);
      ShapeApart(r, s);
      FirstUnused(r, s, held, loose);
      var f := s.free[0];
      DataStore(ram, s.dirs, s.tabs, s.pages, kern, f, ZEROS);
      NewTableStore(ram[f := ZEROS], s.dirs, s.tabs, s.pages, kern, Tab(k.env, k.pdx), f);
    }
  }

  /** After the walk of page_insert the frame to be mapped is still unused as a table and off the free list. */
  lemma WalkedTable(r: Ram, s: State, k: Slot, f: nat, held: multiset<nat>, loose: set<nat>)
    requires During(r, s, held, loose) && UserSlot(s, k)
    requires r.Usable(f) && f !in s.free && !IsTable(s, f) && !IsDir(s, f)
    ensures TableReady(s, k) ==>
      var s1 := AddTable(s, Tab(k.env, k.pdx));
      && During(r, s1, held, loose) && Tab(k.env, k.pdx) in s1.tabs && s1.dirs == s.dirs
      && f !in s1.free && !IsTable(s1, f) && !IsDir(s1, f)
  {
    hide Shape, Ledger, IsTable, IsDir, AddTable;
    if TableReady(s, k) {
      AddedTableIsNot(s, Tab(k.env, k.pdx), f);
      AddTableKeeps(r, s, Tab(k.env, k.pdx), held, loose);
      AddTableMaps(s, Tab(k.env, k.pdx));
    }
  }

  /** The counting side of page_insert: take a reference, drop the old mapping, record the new one. */
  lemma InsertCounts(r: Ram, s: State, k: Slot, m: Mapping, held: multiset<nat>, loose: set<nat>)
    requires During(r, s, held, loose)
    requires Tab(k.env, k.pdx) in s.tabs && k.ptx < NPTENTRIES
    requires r.Usable(m.frame) && m.frame !in s.free && !IsTable(s, m.frame) && !IsDir(s, m.frame)
    ensures |s.ref| == r.npages
    ensures During(r, Incref(s, m.frame), held + multiset{m.frame}, loose - {m.frame})
    ensures During(r, Map(s, k, m), held, loose - {m.frame})
    ensures held + multiset{m.frame} - multiset{m.frame} == held
    ensures var s2 := Unmap(Incref(s, m.frame), k);
      s2.tabs == s.tabs && s2.dirs == s.dirs && Map(s, k, m) == s2.(pages := s2.pages[k := m])
    ensures k !in s.pages ==> Unmap(Incref(s, m.frame), k) == Incref(s, m.frame)
    ensures Incref(s, m.frame) == s.(ref := s.ref[m.frame := s.ref[m.frame] + 1])
  {
    hide Shape, Ledger, IsTable, IsDir, Decref;
    MapKeeps(r, s, k, m, held, loose);
    IncrefKeeps(r, s, held, loose, m.frame);
    SameMaps(r, s, Incref(s, m.frame));
    LedgerLength(r, s, held, loose);
    UnmapKeeps(r, Incref(s, m.frame), k, held + multiset{m.frame}, loose - {m.frame});
  }

  lemma WordsOf(r: Ram, s: State, held: multiset<nat>, loose: set<nat>, ram: seq<Page>, kern: Page, k: Slot)
    requires During(r, s, held, loose) && Decodes(ram, s.dirs, s.tabs, s.pages, kern)
    requires k.env in s.dirs && k.ptx < NPTENTRIES && Tab(k.env, k.pdx) in s.tabs
    ensures var t := s.tabs[Tab(k.env, k.pdx)];
      t < |ram| && |ram[t]| == NPTENTRIES && (Present(ram[t][k.ptx]) <==> k in s.pages)
  {
    hide Ledger, Decodes, Shape;
    Nested(r, s);
    WordsAt(r, s, ram, kern, k);
  }

  lemma InsertWords(r: Ram, s: State, held: multiset<nat>, loose: set<nat>, ram: seq<Page>, kern: Page,
                    k: Slot, t: nat, dir: nat, f: nat, perm: Flags)
    requires During(r, s, held, loose) && Decodes(ram, s.dirs, s.tabs, s.pages, kern)
    requires k.env in s.dirs && s.dirs[k.env] == dir && k.pdx < PDX_UTOP && k.ptx < NPTENTRIES
    requires Tab(k.env, k.pdx) in s.tabs && s.tabs[Tab(k.env, k.pdx)] == t
    ensures dir < |ram| && t < |ram| && t != dir && |ram[dir]| == |ram[t]| == NPTENTRIES
    ensures var x := Entry(f, Or(perm, PTE_P));
      var y := Entry(ram[dir][k.pdx].frame, Or(ram[dir][k.pdx].flags, perm));
      && Store(ram, t, k.ptx, x)[dir] == ram[dir]
      && Decodes(Store(Store(ram, t, k.ptx, x), dir, k.pdx, y), s.dirs, s.tabs,
                 s.pages[k := Mapping(f, Or(perm, PTE_P))], kern)
  {
    hide Shape, Ledger, Decodes, Or, Apart;
    WordsAt(r, s, ram, kern, k);
    ShapeApart(r, s);
    var y := Entry(ram[dir][k.pdx].frame, Or(ram[dir][k.pdx].flags, perm));
    StoresCommute(ram, t, k.ptx, Entry(f, Or(perm, PTE_P)), dir, k.pdx, y);
    InsertStores(ram, s.dirs, s.tabs, s.pages, kern, k, t, dir, Entry(f, Or(perm, PTE_P)), perm, y);
  }

  /** An environment is live exactly when it has a directory, and `dirs` records it. */
  ghost predicate Rooted(envs: seq<Env>, dirs: map<nat, nat>) {
    && (forall e :: e in dirs ==> e < |envs|)
    && (forall e :: 0 <= e < |envs| ==>
          && (envs[e].status.Free? <==> e !in dirs)
          && envs[e].pgdir == if e in dirs then Some(dirs[e]) else None)
  }

  ghost predicate FreeSlots(envs: seq<Env>, free: seq<nat>) {
    && NoDup(free)
    && (forall e: nat :: e in free <==> e < |envs| && envs[e].status.Free?)
  }

  // ------------------------------------------------------- environment ids

  const ENVGENSHIFT_UNIT: int := 0x1000

  /** ENVX(envid): the low 10 bits. */
  function Envx(envid: int): (i: nat)
    ensures i < NENV
  {
    envid % NENV
  }

  /** The env_id that env_alloc gives to slot `e` after `id`. */
  function NextId(id: int, e: nat): int {
    var g := Int32(id + ENVGENSHIFT_UNIT);
    var generation := g - g % NENV;
    (if generation <= 0 then ENVGENSHIFT_UNIT else generation) + e
  }

  lemma SameSlot(id: int)
    ensures (id + ENVGENSHIFT_UNIT) % NENV == id % NENV
  {
    var q := id / NENV;
    assert id == NENV * q + id % NENV && id + ENVGENSHIFT_UNIT == NENV * (q + 4) + id % NENV;
  }

  lemma SlotOf(e: nat)
    requires e < NENV
    ensures (ENVGENSHIFT_UNIT + e) % NENV == e
  {
  }

  /** Ids are positive, carry their slot, and never repeat the slot's previous id, even when the generation wraps. */
  lemma NextIdIsFresh(id: int, e: nat)
    requires e < NENV
    requires id == 0 || (0 < id < 0x8000_0000 && Envx(id) == e)
    ensures 0 < NextId(id, e) < 0x8000_0000
    ensures Envx(NextId(id, e)) == e
    ensures NextId(id, e) != id
  {
    var y := id + ENVGENSHIFT_UNIT;
    SameSlot(id);
    if y < 0x8000_0000 {
      assert Int32(y) == y;
      assert NextId(id, e) == if id == 0 then ENVGENSHIFT_UNIT + e else y;
    } else {
      assert Int32(y) == y - 0x1_0000_0000;
      assert NextId(id, e) == ENVGENSHIFT_UNIT + e;
    }
    SlotOf(e);
  }

  /** An environment's id carries its slot; a slot that was never used has id 0. */
  ghost predicate Named(envs: seq<Env>) {
    forall e :: 0 <= e < |envs| ==>
      || (envs[e].id == 0 && envs[e].status.Free?)
      || (0 < envs[e].id < 0x8000_0000 && Envx(envs[e].id) == e)
  }

  /** The id of env_alloc is new: neither the slot's last one nor that of any other environment. */
  lemma ClaimName(envs: seq<Env>, e: nat, x: Env)
    requires Named(envs) && |envs| == NENV && e < NENV && x.id == NextId(envs[e].id, e)
    ensures Named(envs[e := x]) && x.id != envs[e].id
    ensures forall d :: 0 <= d < NENV && d != e ==> envs[d].id != x.id
  {
    hide NextId;
    NextIdIsFresh(envs[e].id, e);
  }

  lemma SameName(envs: seq<Env>, e: nat, x: Env)
    requires Named(envs) && e < |envs| && x.id == envs[e].id && !envs[e].status.Free?
    ensures Named(envs[e := x])
  {
  }

  lemma TailMembers(xs: seq<nat>)
    requires NoDup(xs) && xs != []
    ensures NoDup(xs[1..])
    ensures forall x :: x in xs[1..] <==> x in xs && x != xs[0]
  {
  }

  lemma ChainHead(link: seq<Option<nat>>, head: Option<nat>, xs: seq<nat>)
    requires Chain(link, head, xs)
    ensures head == At(xs, 0)
  {
  }

  lemma FirstSlot(envs: seq<Env>, free: seq<nat>, dirs: map<nat, nat>)
    requires FreeSlots(envs, free) && Rooted(envs, dirs) && free != []
    ensures free[0] < |envs| && free[0] !in dirs && envs[free[0]].status.Free?
  {
    assert free[0] in free;
  }

  /** The first free slot becomes a live environment with directory `f`. */
  lemma ClaimSlot(envs: seq<Env>, free: seq<nat>, dirs: map<nat, nat>, x: Env, f: nat)
    requires FreeSlots(envs, free) && Rooted(envs, dirs) && free != []
    requires !x.status.Free? && x.pgdir == Some(f)
    ensures free[0] < |envs|
    ensures Rooted(envs[free[0] := x], dirs[free[0] := f])
    ensures FreeSlots(envs[free[0] := x], free[1..])
  {
    assert free[0] in free;
    TailMembers(free);
  }

  lemma FramedPages(ram: seq<Page>, dirs: map<nat, nat>, tabs: map<Tab, nat>, pages: map<Slot, Mapping>, kern: Page)
    requires Decodes(ram, dirs, tabs, pages, kern)
    ensures |kern| == NPDENTRIES
    ensures forall f :: 0 <= f < |ram| ==> |ram[f]| == NPTENTRIES
  {
  }

  /** What env_setup_vm relies on and establishes in the accounting. */
  lemma SetupFacts(r: Ram, s: State, e: nat)
    requires Inv(r, s) && s.free != [] && e !in s.dirs
    ensures Inv(r, AddDir(s, e))
    ensures r.Usable(s.free[0]) && |s.ref| == r.npages
    ensures forall x :: x in s.dirs ==> s.dirs[x] != s.free[0]
    ensures forall t :: t in s.tabs ==> s.tabs[t] != s.free[0]
    ensures forall p :: p in s.pages ==> Tab(p.env, p.pdx) in s.tabs
  {
    hide Shape, Ledger;
    AddDirKeeps(r, s, e);
    FirstUnused(r, s, multiset{}, {});
    Nested(r, s);
  }

  lemma UnmapAbsent(s: State, k: Slot)
    ensures k !in s.pages ==> Unmap(s, k) == s
  {
  }

  lemma AbsentTable(s: State, e: nat, d: nat)
    ensures Tab(e, d) !in s.tabs ==> ClearTable(s, e, d) == s
  {
  }

  lemma DirWordOf(r: Ram, s: State, ram: seq<Page>, kern: Page, e: nat, d: nat)
    requires Inv(r, s) && Decodes(ram, s.dirs, s.tabs, s.pages, kern) && e in s.dirs && d < PDX_UTOP
    ensures s.dirs[e] < |ram| && |ram[s.dirs[e]]| == NPDENTRIES
    ensures var pde := ram[s.dirs[e]][d];
      (Present(pde) <==> Tab(e, d) in s.tabs) && (Present(pde) ==> pde.frame == s.tabs[Tab(e, d)])
  {
  }

  lemma TableEmptied(r: Ram, s: State, s1: State, e: nat, d: nat)
    requires Inv(r, s1) && s1.pages == PagesWithout(s.pages, e, d, NPTENTRIES)
    ensures forall p :: p in s1.pages ==> Tab(p.env, p.pdx) != Tab(e, d)
  {
  }

  /** Clearing a directory word whose table is empty. */
  lemma UnlinkedTable(r: Ram, s: State, ram: seq<Page>, kern: Page, k: Tab)
    requires Inv(r, s) && Decodes(ram, s.dirs, s.tabs, s.pages, kern) && k in s.tabs
    requires forall p :: p in s.pages ==> Tab(p.env, p.pdx) != k
    ensures k.env in s.dirs && s.dirs[k.env] < |ram| && k.pdx < |ram[s.dirs[k.env]]| && r.Usable(s.tabs[k])
    ensures During(r, s.(tabs := s.tabs - {k}), multiset{} + multiset{s.tabs[k]}, {})
    ensures Decodes(Store(ram, s.dirs[k.env], k.pdx, ZERO), s.dirs, s.tabs - {k}, s.pages, kern)
  {
    hide Shape, Ledger, Decodes, Apart;
    Nested(r, s);
    WordsAt(r, s, ram, kern, Slot(k.env, k.pdx, 0));
    TableFrameUsable(r, s, k);
    ShapeApart(r, s);
    UnlinkTableKeeps(r, s, k, multiset{}, {});
    UnlinkTableShape(r, s, k);
    DropTableStore(ram, s.dirs, s.tabs, s.pages, kern, k);
  }

  lemma DirEmptied(r: Ram, s: State, s1: State, e: nat)
    requires Inv(r, s) && s1.tabs == TabsFrom(s.tabs, e, PDX_UTOP)
    ensures forall k :: k in s1.tabs ==> k.env != e
  {
  }

  lemma UnlinkedDir(r: Ram, s: State, ram: seq<Page>, kern: Page, e: nat)
    requires Inv(r, s) && Decodes(ram, s.dirs, s.tabs, s.pages, kern) && e in s.dirs
    requires forall k :: k in s.tabs ==> k.env != e
    ensures r.Usable(s.dirs[e])
    ensures During(r, s.(dirs := s.dirs - {e}), multiset{} + multiset{s.dirs[e]}, {})
    ensures Decodes(ram, s.dirs - {e}, s.tabs, s.pages, kern)
  {
    hide Shape, Ledger, Decodes;
    DirFrameUsable(r, s, e);
    UnlinkDirKeeps(r, s, e, multiset{}, {});
    UnlinkDirShape(r, s, e);
    DropDirStore(ram, s.dirs, s.tabs, s.pages, kern, e);
  }

  lemma LiveHasDir(envs: seq<Env>, dirs: map<nat, nat>, e: nat)
    requires Rooted(envs, dirs) && e < |envs| && !envs[e].status.Free?
    ensures e in dirs && envs[e].pgdir == Some(dirs[e])
  {
  }

  /** A live environment goes back on env_free_list. */
  lemma ReleaseSlot(envs: seq<Env>, free: seq<nat>, dirs: map<nat, nat>, e: nat, x: Env)
    requires FreeSlots(envs, free) && Rooted(envs, dirs) && e < |envs| && !envs[e].status.Free?
    requires x.status.Free? && x.pgdir == None
    ensures e !in free
    ensures Rooted(envs[e := x], dirs - {e})
    ensures FreeSlots(envs[e := x], [e] + free)
  {
  }

  /** A frame just taken from the free list may be inserted anywhere. */
  lemma TakenFrame(r: Ram, s: State)
    requires Inv(r, s) && s.free != []
    ensures var f := s.free[0];
      r.Usable(f) && f !in Take(s).free && !IsTable(Take(s), f) && !IsDir(Take(s), f)
  {
    hide Shape, Count;
    TakeKeeps(r, s, multiset{}, {});
    UnusedHasNoRole(s, s.free[0]);
  }


  lemma EntryOf(r: Ram, s: State, ram: seq<Page>, kern: Page, k: Slot)
    requires Inv(r, s) && Decodes(ram, s.dirs, s.tabs, s.pages, kern) && k in s.pages
    ensures Tab(k.env, k.pdx) in s.tabs
    ensures var t := s.tabs[Tab(k.env, k.pdx)];
      t < |ram| && k.ptx < |ram[t]| && ram[t][k.ptx] == Entry(s.pages[k].frame, s.pages[k].flags)
  {
    hide Shape, Ledger, Decodes;
    Nested(r, s);
    WordsAt(r, s, ram, kern, k);
  }

  /** A slot that was free has no pages, and none appear when it is claimed. */
  lemma FreshSpace(r: Ram, s: State, envs: seq<Env>, e: nat)
    requires Inv(r, s) && Rooted(envs, s.dirs) && e < |envs| && envs[e].status.Free?
    ensures e !in s.dirs && (forall k :: k in s.pages ==> k.env != e)
  {
  }

  lemma Suspend(envs: seq<Env>, free: seq<nat>, dirs: map<nat, nat>, e: nat)
    requires FreeSlots(envs, free) && Rooted(envs, dirs) && e < |envs| && !envs[e].status.Free?
    ensures FreeSlots(envs[e := envs[e].(status := NotRunnable)], free)
    ensures Rooted(envs[e := envs[e].(status := NotRunnable)], dirs)
  {
  }

  lemma UserPdx(va: nat)
    requires va < UTOP
    ensures Pdx(va) < PDX_UTOP && Ptx(va) < NPTENTRIES
  {
  }

  /** What both levels of the walk say about a user page is what the flat map says. */
  lemma Translated(r: Ram, s: State, ram: seq<Page>, kern: Page, k: Slot)
    requires Inv(r, s) && Decodes(ram, s.dirs, s.tabs, s.pages, kern) && UserSlot(s, k)
    ensures s.dirs[k.env] < |ram| && |ram[s.dirs[k.env]]| == NPDENTRIES
    ensures var pde := ram[s.dirs[k.env]][k.pdx];
      && (Present(pde) ==> pde.frame < |ram| && |ram[pde.frame]| == NPTENTRIES)
      && (forall bit :: bit == PTE_P || bit == PTE_W || bit == PTE_U ==>
            (k in s.pages && Has(s.pages[k].flags, bit) <==>
             && Present(pde) && Has(pde.flags, bit)
             && Present(ram[pde.frame][k.ptx]) && Has(ram[pde.frame][k.ptx].flags, bit)))
      && (k in s.pages ==> ram[pde.frame][k.ptx].frame == s.pages[k].frame)
  {
    hide Shape, Ledger, Decodes, Has, Covers;
    WordsAt(r, s, ram, kern, k);
    if k in s.pages {
      CoveredAt(r, s, ram, kern, k);
      forall bit | bit == PTE_P || bit == PTE_W || bit == PTE_U
        ensures Has(s.pages[k].flags, bit) ==> Has(ram[s.dirs[k.env]][k.pdx].flags, bit)
      {
        BothLevelsEqualTable(ram[s.dirs[k.env]][k.pdx].flags, s.pages[k].flags, bit);
      }
    }
  }

  lemma CoveredAt(r: Ram, s: State, ram: seq<Page>, kern: Page, k: Slot)
    requires Shape(r, s) && Decodes(ram, s.dirs, s.tabs, s.pages, kern) && k in s.pages
    ensures k.env in s.dirs && s.dirs[k.env] < |ram| && k.pdx < |ram[s.dirs[k.env]]|
    ensures Covers(ram[s.dirs[k.env]][k.pdx].flags, s.pages[k].flags)
  {
  }

  lemma DataFrameStore(r: Ram, s: State, ram: seq<Page>, kern: Page, k: Slot, i: nat, x: Entry)
    requires Inv(r, s) && Decodes(ram, s.dirs, s.tabs, s.pages, kern) && k in s.pages && i < NPTENTRIES
    requires |ram| == r.npages
    ensures var f := s.pages[k].frame;
      f < |ram| && i < |ram[f]| && Decodes(Store(ram, f, i, x), s.dirs, s.tabs, s.pages, kern)
  {
    hide Shape, Ledger, Decodes;
    PageFrameRole(r, s, k);
    FramedPages(ram, s.dirs, s.tabs, s.pages, kern);
    var f := s.pages[k].frame;
    DataStore(ram, s.dirs, s.tabs, s.pages, kern, f, ram[f][i := x]);
  }

  /** page_free_list after page_init: base memory but frame 0 and the boot code, and extended memory past the kernel. */
  ghost predicate FreeAtBoot(free: seq<nat>, npages: nat, end: nat) {
    forall f: nat :: f in free <==>
      f < npages && ((0 < f < IOPHYSMEM && f != MPENTRY) || (f >= EXTPHYSMEM && f >= end))
  }

  /** With no environment, a free list of exactly the unreserved frames is the whole account. */
  lemma BootInv(r: Ram, s: State)
    requires s.dirs == map[] && s.tabs == map[] && s.pages == map[]
    requires |s.ref| == r.npages && forall i :: 0 <= i < r.npages ==> s.ref[i] == 0
    requires NoDup(s.free) && forall f: nat :: f in s.free <==> r.Usable(f)
    ensures Inv(r, s)
  {
    assert ShapeBy(r, s.dirs, s.tabs, s.pages, map[]);
    forall f: nat ensures Uses(s, f) == 0 {
      assert PageUsers(s.pages, f) == {} && TabUsers(s.tabs, f) == {} && DirUsers(s.dirs, f) == {};
    }
  }

  /** page_init keeps frame 0, the I/O hole, the kernel up to `end`, and the boot code of the other processors. */
  predicate KeptAtBoot(i: nat, end: nat) {
    i == 0 || IOPHYSMEM <= i < EXTPHYSMEM || EXTPHYSMEM <= i < end || i == MPENTRY
  }

  function KeptBelow(npages: nat, end: nat): set<nat> {
    set i: nat | i < npages && KeptAtBoot(i, end)
  }

  lemma NoneListed(link: seq<Option<nat>>)
    requires forall i :: 0 <= i < |link| ==> link[i] == None
    ensures Listed(link, None, [])
  {
  }

  lemma UsableAtBoot(r: Ram, free: seq<nat>, end: nat)
    requires r.reserved == KeptBelow(r.npages, end) && forall f: nat :: f in free <==> r.Usable(f)
    ensures FreeAtBoot(free, r.npages, end)
  {
  }

  class Machine {
    const cfg: Ram
    /** The first frame past the kernel, as boot_alloc(0) gives it. */
    const kernelEnd: nat
    /** kern_pgdir */
    const kern: Page
    /** pages[].pp_ref */
    var ref: seq<nat>
    /** pages[].pp_link */
    var link: seq<Option<nat>>
    /** page_free_list */
    var head: Option<nat>
    var ram: seq<Page>

    var envs: seq<Env>
    /** envs[].env_link */
    var envLink: seq<Option<nat>>
    /** env_free_list */
    var envHead: Option<nat>
    var curenv: Option<nat>

    ghost var view: State
    /** the environments on env_free_list, in order */
    ghost var envFree: seq<nat>
    /** references taken by kernel code that are not in any table yet */
    ghost var held: multiset<nat>
    /** frames taken off the free list that have no reference yet */
    ghost var loose: set<nat>

    ghost predicate Books()
      reads this
    {
      && During(cfg, view, held, loose)
      && view.ref == ref
      && |link| == cfg.npages
      && Listed(link, head, view.free)
    }

    ghost predicate Tables()
      reads this
    {
      && |ram| == cfg.npages
      && Decodes(ram, view.dirs, view.tabs, view.pages, kern)
    }

    ghost predicate Valid()
      reads this
    {
      Books() && Tables()
    }

    /**
     The environment table agrees with the address spaces, env_free_list holds exactly the
     free slots, and ids carry their slots.
     */
    ghost predicate EnvTable()
      reads this
    {
      && |envs| == |envLink| == NENV
      && Rooted(envs, view.dirs)
      && Chain(envLink, envHead, envFree)
      && FreeSlots(envs, envFree)
      && Named(envs)
    }

    /** Between system calls. */
    ghost predicate Quiet()
      reads this
    {
      Valid() && EnvTable() && held == multiset{} && loose == {}
    }

    /** Boot: page_init and env_init over frames whose counts and links are zero. */
    constructor (npages: nat, kernelEnd: nat, kern: Page, ram: seq<Page>)
      requires |kern| == NPDENTRIES && |ram| == npages
      requires forall f :: 0 <= f < |ram| ==> |ram[f]| == NPTENTRIES
      ensures Quiet() && cfg.npages == npages && this.kernelEnd == kernelEnd && this.kern == kern
      ensures FreeAtBoot(view.free, npages, kernelEnd)
      ensures view.dirs == map[] && view.tabs == map[] && view.pages == map[]
      ensures |envFree| == NENV && forall e :: 0 <= e < NENV ==> envFree[e] == e
    {
      hide Listed, Chain, During, Rooted, FreeSlots, Named, Decodes;
      cfg, this.kernelEnd, this.kern, this.ram := Ram(npages, KeptBelow(npages, kernelEnd)), kernelEnd, kern, ram;
      ref := seq(npages, i => 0);
      link := seq(npages, i => None);
      head := None;
      envs := seq(NENV, i => Env(0, 0, Free, None));
      envLink := seq(NENV, i => None);
      envHead, curenv := None, None;
      view := State([], [], map[], map[], map[]);
      held, loose, envFree := multiset{}, {}, [];
      new;
      PageInit();
      BootTables(ram, kern);
      EnvInit();
    }

    /** page_init */
    method PageInit()
      requires |ref| == |link| == cfg.npages && head == None && cfg.reserved == KeptBelow(cfg.npages, kernelEnd)
      requires forall i :: 0 <= i < cfg.npages ==> ref[i] == 0 && link[i] == None
      modifies this`link, this`head, this`view
      ensures |link| == cfg.npages && view.ref == ref && Listed(link, head, view.free)
      ensures view.dirs == map[] && view.tabs == map[] && view.pages == map[] && Inv(cfg, view)
      ensures FreeAtBoot(view.free, cfg.npages, kernelEnd)
    {
      hide Listed, Inv, FreeAtBoot;
      ghost var free: seq<nat> := [];
      var i := 0;
      NoneListed(link);
      while i < cfg.npages
        invariant 0 <= i <= cfg.npages && |link| == cfg.npages
        invariant Listed(link, head, free) && NoDup(free)
        invariant forall f: nat :: f in free <==> f < i && cfg.Usable(f)
      {
        if i == 0 || (IOPHYSMEM <= i < EXTPHYSMEM) {
          ListedMisses(link, head, free, i);
          link := link[i := None];
        } else if EXTPHYSMEM <= i < kernelEnd {
          ListedMisses(link, head, free, i);
          link := link[i := None];
        } else if i == MPENTRY {
          ListedMisses(link, head, free, i);
          link := link[i := None];
        } else {
          ListedPush(link, head, free, i);
          link := link[i := head];
          head := Some(i);
          free := [i] + free;
        }
        i := i + 1;
      }
      view := State(ref, free, map[], map[], map[]);
      UsableAtBoot(cfg, free, kernelEnd);
      BootInv(cfg, view);
    }

    /** env_init: the first env_alloc will return envs[0]. */
    method EnvInit()
      requires |envs| == |envLink| == NENV && forall e :: 0 <= e < NENV ==> envs[e] == Env(0, 0, Free, None)
      modifies this`envLink, this`envHead, this`envFree
      ensures |envLink| == NENV && Chain(envLink, envHead, envFree) && FreeSlots(envs, envFree)
      ensures Rooted(envs, map[]) && Named(envs)
      ensures |envFree| == NENV && forall e :: 0 <= e < NENV ==> envFree[e] == e
    {
      envHead, envFree := None, [];
      var i := NENV;
      while i > 0
        invariant 0 <= i <= NENV && |envLink| == NENV && Chain(envLink, envHead, envFree)
        invariant |envFree| == NENV - i && forall j :: 0 <= j < |envFree| ==> envFree[j] == i + j
      {
        i := i - 1;
        ChainPush(envLink, envHead, envFree, i);
        envLink := envLink[i := envHead];
        envHead := Some(i);
        envFree := [i] + envFree;
      }
      forall e: nat | e < NENV ensures e in envFree {
        assert envFree[e] == e;
      }
    }

    /** page_alloc */
    method PageAlloc(zero: bool) returns (p: Option<nat>)
      requires Valid()
      modifies this`link, this`head, this`ram, this`view, this`loose
      ensures Valid()
      ensures p == At(old(view.free), 0)
      ensures p == None ==>
        view == old(view) && loose == old(loose) && ram == old(ram) && link == old(link) && head == old(head)
      ensures p.Some? ==> old(view.free) != [] && view == Take(old(view)) && loose == old(loose) + {p.value}
      ensures p.Some? ==> p.value < |ram| && |ram| == |old(ram)|
      ensures p.Some? ==> ram == if zero then old(ram)[p.value := ZEROS] else old(ram)
    {
      hide During, Listed, Decodes;
      HeadIsFirst(link, head, view.free);
      if head == None {
        return None;
      }
      var f := head.value;
      PopFree(cfg, view, held, loose, link, head);
      head := link[f];
      link := link[f := None];
      if zero {
        DataStore(ram, view.dirs, view.tabs, view.pages, kern, f, ZEROS);
        ram := ram[f := ZEROS];
      }
      view := Take(view);
      loose := loose + {f};
      p := Some(f);
    }

    /** page_free; the panic on a linked or referenced page cannot happen. */
    method PageFree(f: nat)
      requires Books() && f in loose
      modifies this`link, this`head, this`view, this`loose
      ensures Books()
      ensures view == old(view).(free := [f] + old(view.free)) && loose == old(loose) - {f}
    {
      hide Shape, Count;
      assert f !in view.free && f < |link|;
      assert link[f] == None && ref[f] == 0;
      PushKeeps(cfg, view, held, loose, f);
      ListedPush(link, head, view.free, f);
      hide Ledger, Listed;
      link := link[f := head];
      head := Some(f);
      SameMaps(cfg, view, view.(free := [f] + view.free));
      view := view.(free := [f] + view.free);
      loose := loose - {f};
    }

    /** page_decref */
    method PageDecref(f: nat)
      requires Books() && cfg.Usable(f) && held[f] > 0
      modifies this`ref, this`link, this`head, this`view, this`held, this`loose
      ensures Books()
      ensures view == Decref(old(view), f) && held == old(held) - multiset{f} && loose == old(loose)
    {
      hide Shape, Count, Listed;
      DecrefKeeps(cfg, view, held, loose, f);
      LowerKeeps(cfg, view, held, loose, f);
      ghost var lowered := view.(ref := view.ref[f := view.ref[f] - 1]);
      SameMaps(cfg, view, lowered);
      hide Ledger;
      ref := ref[f := ref[f] - 1];
      view := lowered;
      held := held - multiset{f};
      if ref[f] == 0 {
        loose := loose + {f};
        PageFree(f);
        assert old(loose) + {f} - {f} == old(loose);
      }
    }

    /** The part of pgdir_walk that makes a table. */
    method MakeTable(dir: nat, va: nat, ghost e: nat) returns (p: Option<nat>)
      requires Valid() && e in view.dirs && view.dirs[e] == dir && Pdx(va) < PDX_UTOP && Tab(e, Pdx(va)) !in view.tabs
      modifies this`ref, this`link, this`head, this`ram, this`view, this`loose
      ensures Valid() && loose == old(loose) && p == At(old(view.free), 0)
      ensures p == None ==> view == old(view) && ram == old(ram)
      ensures p.Some? ==> old(view.free) != [] && view == AddTable(old(view), Tab(e, Pdx(va)))
      ensures SameBut(old(ram), ram, {dir} + FirstFree(old(view)))
    {
      hide During, Listed, Decodes, Pdx, Ptx, SameBut, FirstFree, AddTable;
      SameSelf(ram, {dir} + FirstFree(view));
      ghost var s0 := view;
      NewTable(cfg, s0, held, loose, ram, kern, Slot(e, Pdx(va), Ptx(va)), dir);
      p := PageAlloc(true);
      if p == None {
        return;
      }
      var f := p.value;
      TwoStores(old(ram), s0, dir, Pdx(va), Entry(f, PTE_P));
      ref := ref[f := ref[f] + 1];
      ram := Store(ram, dir, Pdx(va), Entry(f, PTE_P));
      view := AddTable(s0, Tab(e, Pdx(va)));
      loose := old(loose);
    }

    /** pgdir_walk; a table entry is named by its frame and index. */
    method PgdirWalk(dir: nat, va: nat, create: bool, ghost e: nat) returns (pte: Option<(nat, nat)>)
      requires Valid() && e in view.dirs && view.dirs[e] == dir && Pdx(va) < PDX_UTOP
      modifies this`ref, this`link, this`head, this`ram, this`view, this`loose
      ensures Valid() && loose == old(loose)
      ensures var k := Tab(e, Pdx(va));
        if k in old(view.tabs) || !create || old(view.free) == []
        then view == old(view) && ram == old(ram)
        else view == AddTable(old(view), k)
      ensures SameBut(old(ram), ram, {dir} + FirstFree(old(view)))
      ensures pte == if Tab(e, Pdx(va)) in view.tabs then Some((view.tabs[Tab(e, Pdx(va))], Ptx(va))) else None
    {
      hide Shape, Ledger, Listed, Decodes, Pdx, Ptx, SameBut, FirstFree;
      SameSelf(ram, {dir} + FirstFree(view));
      ghost var k := Slot(e, Pdx(va), Ptx(va));
      WordsAt(cfg, view, ram, kern, k);
      if !Present(ram[dir][Pdx(va)]) {
        if !create {
          return None;
        }
        ghost var s0 := view;
        if s0.free != [] {
          AddTableKeeps(cfg, s0, Tab(e, Pdx(va)), held, loose);
        }
        var p := MakeTable(dir, va, e);
        if p == None {
          return None;
        }
        WordsAt(cfg, view, ram, kern, k);
      }
      var pde := ram[dir][Pdx(va)];
      pte := Some((pde.frame, Ptx(va)));
    }

    /**
     page_lookup.  The entry's address is stored only where `store` already holds
     a non-null pointer, as the code tests `*pte_store`.
     */
    method PageLookup(dir: nat, va: nat, store: Option<(nat, nat)>, ghost e: nat)
      returns (pp: Option<nat>, stored: Option<(nat, nat)>)
      requires Valid() && e in view.dirs && view.dirs[e] == dir && Pdx(va) < PDX_UTOP
      modifies this`ref, this`link, this`head, this`ram, this`view, this`loose
      ensures Valid() && view == old(view) && loose == old(loose) && ram == old(ram)
      ensures var k := Slot(e, Pdx(va), Ptx(va));
        if k in view.pages
        then Tab(e, Pdx(va)) in view.tabs && pp == Some(view.pages[k].frame)
             && stored == (if store.Some? then Some((view.tabs[Tab(e, Pdx(va))], Ptx(va))) else None)
        else pp == None && stored == store
    {
      hide Shape, Ledger, Listed, Decodes;
      WordsAt(cfg, view, ram, kern, Slot(e, Pdx(va), Ptx(va)));
      stored := store;
      var pte := PgdirWalk(dir, va, false, e);
      if pte == None {
        return None, stored;
      }
      var (t, i) := pte.value;
      if !Present(ram[t][i]) {
        return None, stored;
      }
      pp := Some(ram[t][i].frame);
      if store.Some? {
        stored := pte;
      }
    }

    /** page_remove; its uninitialised pointer is taken to be non-null. */
    method PageRemove(dir: nat, va: nat, ghost e: nat)
      requires Valid() && e in view.dirs && view.dirs[e] == dir && Pdx(va) < PDX_UTOP
      modifies this`ref, this`link, this`head, this`ram, this`view, this`held, this`loose
      ensures Valid() && loose == old(loose) && held == old(held)
      ensures view == Unmap(old(view), Slot(e, Pdx(va), Ptx(va)))
      ensures SameBut(old(ram), ram, TabFrame(old(view), Tab(e, Pdx(va))))
    {
      hide Shape, Ledger, Listed, Decodes, Pdx, Ptx;
      ghost var k := Slot(e, Pdx(va), Ptx(va));
      var pp, ptep := PageLookup(dir, va, Some((0, 0)), e);
      if pp.Some? {
        var f := pp.value;
        ghost var s0, ram0 := view, ram;
        PageFrameRole(cfg, s0, k);
        UnlinkPageKeeps(cfg, s0, k, held, loose);
        UnlinkPageShape(cfg, s0, k);
        ShapeApart(cfg, s0);
        WordsAt(cfg, s0, ram, kern, k);
        ClearEntryStore(ram, s0.dirs, s0.tabs, s0.pages, kern, k);
        view := s0.(pages := s0.pages - {k});
        held := held + multiset{f};
        PageDecref(f);
        DecrefPushes(s0.(pages := s0.pages - {k}), f);
        assert old(held) + multiset{f} - multiset{f} == old(held);
        var (t, i) := ptep.value;
        ram := Store(ram, t, i, ZERO);
      }
    }

    /** The stores of page_insert: the table word, then the directory's flags. */
    method SetWords(dir: nat, t: nat, va: nat, f: nat, perm: Flags, ghost e: nat)
      requires Valid() && e in view.dirs && view.dirs[e] == dir && Pdx(va) < PDX_UTOP
      requires Tab(e, Pdx(va)) in view.tabs && view.tabs[Tab(e, Pdx(va))] == t
      modifies this`ram
      ensures |ram| == cfg.npages
      ensures SameBut(old(ram), ram, {t, dir})
      ensures Decodes(ram, view.dirs, view.tabs,
                      view.pages[Slot(e, Pdx(va), Ptx(va)) := Mapping(f, Or(perm, PTE_P))], kern)
    {
      hide During, Listed, Decodes, Or;
      InsertWords(cfg, view, held, loose, ram, kern, Slot(e, Pdx(va), Ptx(va)), t, dir, f, perm);
      ram := Store(ram, t, Ptx(va), Entry(f, Or(perm, PTE_P)));
      ram := Store(ram, dir, Pdx(va), Entry(ram[dir][Pdx(va)].frame, Or(ram[dir][Pdx(va)].flags, perm)));
    }

    /** The part of page_insert that removes what was mapped before. */
    method RemoveOld(dir: nat, t: nat, va: nat, ghost e: nat)
      requires Valid() && e in view.dirs && view.dirs[e] == dir && Pdx(va) < PDX_UTOP
      requires Tab(e, Pdx(va)) in view.tabs && view.tabs[Tab(e, Pdx(va))] == t
      modifies this`ref, this`link, this`head, this`ram, this`view, this`held, this`loose
      ensures Valid() && loose == old(loose) && held == old(held)
      ensures view == Unmap(old(view), Slot(e, Pdx(va), Ptx(va)))
      ensures SameBut(old(ram), ram, {t})
    {
      ghost var k := Slot(e, Pdx(va), Ptx(va));
      assert k !in view.pages ==> Unmap(view, k) == view;
      hide During, Listed, Decodes, Present, Unmap;
      WordsOf(cfg, view, held, loose, ram, kern, k);
      if Present(ram[t][Ptx(va)]) {
        PageRemove(dir, va, e);
      }
    }

    /** The first half of page_insert: the new reference is counted before the old mapping goes. */
    method CountThenRemove(dir: nat, t: nat, f: nat, va: nat, ghost e: nat)
      requires Valid() && e in view.dirs && view.dirs[e] == dir && Pdx(va) < PDX_UTOP
      requires Tab(e, Pdx(va)) in view.tabs && view.tabs[Tab(e, Pdx(va))] == t
      requires f < |ref| && Incref(view, f) == view.(ref := view.ref[f := view.ref[f] + 1])
      requires During(cfg, Incref(view, f), held + multiset{f}, loose - {f})
      modifies this`ref, this`link, this`head, this`ram, this`view, this`held, this`loose
      ensures Valid() && held == old(held) + multiset{f} && loose == old(loose) - {f}
      ensures view == Unmap(Incref(old(view), f), Slot(e, Pdx(va), Ptx(va)))
      ensures SameBut(old(ram), ram, {t})
    {
      hide During, Listed, Decodes, Incref, Unmap;
      ref := ref[f := ref[f] + 1];
      view := Incref(view, f);
      held := held + multiset{f};
      loose := loose - {f};
      RemoveOld(dir, t, va, e);
    }

    /** page_insert, once the table is there */
    method InsertEntry(dir: nat, t: nat, f: nat, va: nat, perm: Flags, ghost e: nat)
      requires Valid() && e in view.dirs && view.dirs[e] == dir && Pdx(va) < PDX_UTOP
      requires Tab(e, Pdx(va)) in view.tabs && view.tabs[Tab(e, Pdx(va))] == t
      requires cfg.Usable(f) && f !in view.free && !IsTable(view, f) && !IsDir(view, f)
      modifies this`ref, this`link, this`head, this`ram, this`view, this`held, this`loose
      ensures Valid() && held == old(held) && loose == old(loose) - {f}
      ensures view == Map(old(view), Slot(e, Pdx(va), Ptx(va)), Mapping(f, Or(perm, PTE_P)))
      ensures SameBut(old(ram), ram, {t, dir})
    {
      hide During, Listed, Decodes, IsTable, IsDir, Or, Incref, Unmap, Map, Pdx, Ptx;
      ghost var k := Slot(e, Pdx(va), Ptx(va));
      ghost var m := Mapping(f, Or(perm, PTE_P));
      InsertCounts(cfg, view, k, m, held, loose);
      CountThenRemove(dir, t, f, va, e);
      SetWords(dir, t, va, f, perm, e);
      view := view.(pages := view.pages[k := m]);
      held := held - multiset{f};
    }

    /** page_insert */
    method PageInsert(dir: nat, f: nat, va: nat, perm: Flags, ghost e: nat) returns (r: Code)
      requires Valid() && e in view.dirs && view.dirs[e] == dir && Pdx(va) < PDX_UTOP
      requires cfg.Usable(f) && f !in view.free && !IsTable(view, f) && !IsDir(view, f)
      modifies this`ref, this`link, this`head, this`ram, this`view, this`held, this`loose
      ensures Valid() && held == old(held)
      ensures var k := Slot(e, Pdx(va), Ptx(va));
        if TableReady(old(view), k)
        then r == Ok && loose == old(loose) - {f}
             && view == Map(AddTable(old(view), Tab(e, Pdx(va))), k, Mapping(f, Or(perm, PTE_P)))
        else r == NoMem && view == old(view) && loose == old(loose) && ram == old(ram)
      ensures SameBut(old(ram), ram, {dir} + TabFrame(old(view), Tab(e, Pdx(va))) + FirstFree(old(view)))
    {
      hide During, Listed, Decodes, IsTable, IsDir, Or, Map;
      WalkedTable(cfg, view, Slot(e, Pdx(va), Ptx(va)), f, held, loose);
      var ptep := PgdirWalk(dir, va, true, e);
      if ptep == None {
        return NoMem;
      }
      InsertEntry(dir, ptep.value.0, f, va, perm, e);
      return Ok;
    }

    /** The loops of env_setup_vm: an empty user half, then the kernel's entries, then the self-map. */
    method FillDirectory(f: nat)
      requires f < |ram| && |ram[f]| == |kern| == NPDENTRIES
      modifies this`ram
      ensures ram == old(ram)[f := NewDirectory(kern, f)]
    {
      hide Or;
      ghost var ram0 := ram;
      var i := 0;
      while i < PDX_UTOP
        invariant 0 <= i <= PDX_UTOP
        invariant |ram| == |ram0| && |ram[f]| == NPDENTRIES && ram == ram0[f := ram[f]]
        invariant forall j :: 0 <= j < i ==> ram[f][j] == ZERO
      {
        ram := Store(ram, f, i, ZERO);
        i := i + 1;
      }
      while i < NPDENTRIES
        invariant PDX_UTOP <= i <= NPDENTRIES
        invariant |ram| == |ram0| && |ram[f]| == NPDENTRIES && ram == ram0[f := ram[f]]
        invariant forall j :: 0 <= j < PDX_UTOP ==> ram[f][j] == ZERO
        invariant forall j :: PDX_UTOP <= j < i ==> ram[f][j] == kern[j]
      {
        ram := Store(ram, f, i, kern[i]);
        i := i + 1;
      }
      ram := Store(ram, f, PDX_UVPT, Entry(f, Or(PTE_P, PTE_U)));
      assert ram[f] == NewDirectory(kern, f);
    }

    /** env_setup_vm */
    method EnvSetupVm(e: nat) returns (r: Code)
      requires Valid() && held == multiset{} && loose == {} && e !in view.dirs && e < |envs|
      modifies this`ref, this`link, this`head, this`ram, this`view, this`loose, this`envs
      ensures Valid() && loose == {}
      ensures if old(view.free) == []
        then r == NoMem && view == old(view) && envs == old(envs)
        else r == Ok && view == AddDir(old(view), e)
             && envs == old(envs)[e := old(envs[e]).(pgdir := Some(view.dirs[e]))]
    {
      hide During, Listed, Decodes, NewDirectory;
      ghost var s0 := view;
      var p := PageAlloc(true);
      if p == None {
        return NoMem;
      }
      var f := p.value;
      SetupFacts(cfg, s0, e);
      FramedPages(ram, s0.dirs, s0.tabs, s0.pages, kern);
      NewDirStore(ram, s0.dirs, s0.tabs, s0.pages, kern, e, f);
      ref := ref[f := ref[f] + 1];
      envs := envs[e := envs[e].(pgdir := Some(f))];
      FillDirectory(f);
      view := AddDir(s0, e);
      loose := {};
      return Ok;
    }

    /** env_alloc */
    method EnvAlloc(parent: int) returns (r: Code, e: nat)
      requires Quiet()
      modifies this`ref, this`link, this`head, this`ram, this`view, this`loose, this`envs, this`envHead, this`envFree
      ensures Quiet()
      ensures if old(envFree) == [] then r == NoFreeEnv
              else if old(view.free) == [] then r == NoMem else r == Ok
      ensures r != Ok ==> view == old(view) && envs == old(envs) && envFree == old(envFree)
      ensures r == Ok ==>
        && e == old(envFree)[0] && e < NENV && old(envs[e]).status.Free?
        && view == AddDir(old(view), e)
        && envs == old(envs)[e := Env(NextId(old(envs[e]).id, e), parent, Runnable, Some(view.dirs[e]))]
        && envs[e].id != old(envs[e]).id && (forall d :: 0 <= d < NENV && d != e ==> envs[d].id != envs[e].id)
    {
      hide During, Listed, Decodes, Chain, Rooted, FreeSlots, Named, NextId;
      ChainHead(envLink, envHead, envFree);
      if envHead == None {
        return NoFreeEnv, 0;
      }
      e := envHead.value;
      FirstSlot(envs, envFree, view.dirs);
      ghost var s0, envs0 := view, envs;
      r := EnvSetupVm(e);
      if r != Ok {
        return;
      }
      ChainPop(envLink, envHead, envFree);
      envs := envs[e := envs[e].(id := NextId(envs[e].id, e), parent := parent, status := Runnable)];
      assert envs == envs0[e := envs[e]];
      ClaimSlot(envs0, envFree, s0.dirs, envs[e], view.dirs[e]);
      ClaimName(envs0, e, envs[e]);
      envHead := envLink[e];
      envFree := envFree[1..];
    }

    /** The inner loop of env_free: unmap every entry of table `pa`. */
    method UnmapAll(dir: nat, pa: nat, d: nat, ghost e: nat)
      requires Valid() && held == multiset{} && loose == {}
      requires e in view.dirs && view.dirs[e] == dir && d < PDX_UTOP
      requires Tab(e, d) in view.tabs && view.tabs[Tab(e, d)] == pa
      modifies this`ref, this`link, this`head, this`ram, this`view, this`held, this`loose
      ensures Valid() && held == multiset{} && loose == {}
      ensures view == ClearEntries(old(view), e, d, NPTENTRIES)
    {
      hide During, Listed, Decodes, Suffix, Unmap, PagesWithout, Present;
      ghost var s0 := view;
      var t := 0;
      while t < NPTENTRIES
        invariant 0 <= t <= NPTENTRIES
        invariant Valid() && held == multiset{} && loose == {}
        invariant view == ClearEntries(s0, e, d, t)
      {
        ClearEntriesEffect(cfg, s0, e, d, t);
        WordsOf(cfg, view, held, loose, ram, kern, Slot(e, d, t));
        UserAddressesAreSlots(0, d, t);
        UnmapAbsent(view, Slot(e, d, t));
        if Present(ram[pa][t]) {
          PageRemove(dir, PgAddr(d, t), e);
        }
        t := t + 1;
      }
    }

    /** One turn of env_free's outer loop on a present table. */
    method FreeTable(dir: nat, d: nat, ghost e: nat)
      requires Valid() && held == multiset{} && loose == {}
      requires e in view.dirs && view.dirs[e] == dir && d < PDX_UTOP && Tab(e, d) in view.tabs
      modifies this`ref, this`link, this`head, this`ram, this`view, this`held, this`loose
      ensures Valid() && held == multiset{} && loose == {}
      ensures view == ClearTable(old(view), e, d)
    {
      hide During, Listed, Decodes, Suffix, Decref, ClearEntries, PagesWithout;
      ghost var s0 := view;
      DirWordOf(cfg, view, ram, kern, e, d);
      var pa := ram[dir][d].frame;
      UnmapAll(dir, pa, d, e);
      ghost var s1 := view;
      ClearEntriesEffect(cfg, s0, e, d, NPTENTRIES);
      TableEmptied(cfg, s0, s1, e, d);
      UnlinkedTable(cfg, s1, ram, kern, Tab(e, d));
      ram := Store(ram, dir, d, ZERO);
      view := s1.(tabs := s1.tabs - {Tab(e, d)});
      held := held + multiset{pa};
      PageDecref(pa);
      DecrefPushes(s1.(tabs := s1.tabs - {Tab(e, d)}), pa);
      assert multiset{} + multiset{pa} - multiset{pa} == multiset{};
    }

    /** The outer loop of env_free. */
    method FreeTables(dir: nat, ghost e: nat)
      requires Valid() && held == multiset{} && loose == {} && e in view.dirs && view.dirs[e] == dir
      modifies this`ref, this`link, this`head, this`ram, this`view, this`held, this`loose
      ensures Valid() && held == multiset{} && loose == {}
      ensures view == ClearTables(old(view), e, PDX_UTOP)
    {
      hide During, Listed, Decodes, Suffix, ClearTable, TabsFrom, PagesFrom;
      ghost var s0 := view;
      var d := 0;
      while d < PDX_UTOP
        invariant 0 <= d <= PDX_UTOP
        invariant Valid() && held == multiset{} && loose == {}
        invariant view == ClearTables(s0, e, d)
      {
        ClearTablesEffect(cfg, s0, e, d);
        DirWordOf(cfg, view, ram, kern, e, d);
        if Present(ram[dir][d]) {
          FreeTable(dir, d, e);
        } else {
          AbsentTable(view, e, d);
        }
        d := d + 1;
      }
    }

    /** The end of env_free: give back the page directory, whose tables are gone. */
    method FreeDirectory(dir: nat, ghost e: nat)
      requires Valid() && held == multiset{} && loose == {} && e in view.dirs && view.dirs[e] == dir
      requires forall k :: k in view.tabs ==> k.env != e
      modifies this`ref, this`link, this`head, this`view, this`held, this`loose
      ensures Valid() && held == multiset{} && loose == {}
      ensures view == Decref(old(view).(dirs := old(view).dirs - {e}), dir)
    {
      hide During, Listed, Decodes, Suffix, Decref;
      UnlinkedDir(cfg, view, ram, kern, e);
      view := view.(dirs := view.dirs - {e});
      held := held + multiset{dir};
      DecrefPushes(view, dir);
      PageDecref(dir);
      assert multiset{} + multiset{dir} - multiset{dir} == multiset{};
    }

    /** env_free up to the return to env_free_list. */
    method FreeSpace(e: nat)
      requires Quiet() && e < NENV && !envs[e].status.Free?
      modifies this`ref, this`link, this`head, this`ram, this`view, this`held, this`loose, this`envs
      ensures Valid() && held == multiset{} && loose == {}
      ensures view == FreeEnv(old(view), e) && view.dirs == old(view).dirs - {e}
      ensures envs == old(envs)[e := old(envs[e]).(pgdir := None)]
    {
      hide During, Listed, Decodes, Suffix, Decref, ClearTables, TabsFrom, PagesFrom, Chain, Rooted, FreeSlots, Named;
      ghost var s0 := view;
      LiveHasDir(envs, view.dirs, e);
      var dir := envs[e].pgdir.value;
      FreeTables(dir, e);
      ghost var s1 := view;
      ClearTablesEffect(cfg, s0, e, PDX_UTOP);
      DirEmptied(cfg, s0, s1, e);
      envs := envs[e := envs[e].(pgdir := None)];
      FreeDirectory(dir, e);
      DecrefPushes(s1.(dirs := s1.dirs - {e}), dir);
    }

    /** env_free */
    method EnvFree(e: nat)
      requires Quiet() && e < NENV && !envs[e].status.Free?
      modifies this`ref, this`link, this`head, this`ram, this`view, this`held, this`loose
      modifies this`envs, this`envLink, this`envHead, this`envFree
      ensures Quiet()
      ensures view == Apply(old(view), Op.EnvFree(e)) && EnvFreed(cfg, old(view), view, e)
      ensures envs == old(envs)[e := old(envs[e]).(pgdir := None, status := Free)]
    {
      hide During, Listed, Decodes, FreeEnv, EnvFreed, Chain, Rooted, FreeSlots, Named;
      LiveHasDir(envs, view.dirs, e);
      FreeEnvEffect(cfg, view, e);
      FreeSpace(e);
      ReleaseSlot(old(envs), envFree, old(view).dirs, e, old(envs[e]).(pgdir := None, status := Free));
      SameName(old(envs), e, old(envs[e]).(pgdir := None, status := Free));
      ChainPush(envLink, envHead, envFree, e);
      envs := envs[e := envs[e].(status := Free)];
      assert envs == old(envs)[e := old(envs[e]).(pgdir := None, status := Free)];
      envLink := envLink[e := envHead];
      envHead := Some(e);
      envFree := [e] + envFree;
    }

    // -------------------------------------------------------- system calls

    /** envid2env; the caller is a running environment. */
    function Envid2Env(envid: int, checkperm: bool): (r: Option<nat>)
      requires |envs| == NENV && curenv.Some? && curenv.value < NENV && !envs[curenv.value].status.Free?
      reads this
      ensures r.Some? ==>
        && r.value < NENV && !envs[r.value].status.Free?
        && (envid == 0 || envs[r.value].id == envid)
        && (checkperm ==> r == curenv || envs[r.value].parent == envs[curenv.value].id)
    {
      if envid == 0 then curenv
      else
        var e := Envx(envid);
        if envs[e].status.Free? || envs[e].id != envid then None
        else if checkperm && curenv != Some(e) && envs[e].parent != envs[curenv.value].id then None
        else Some(e)
    }

    /** A live environment that the caller may manipulate, if `checkperm` asks for that. */
    ghost predicate Names(envid: int, checkperm: bool, e: nat)
      requires |envs| == NENV && curenv.Some? && curenv.value < NENV
      reads this
    {
      && e < NENV && !envs[e].status.Free? && envs[e].id == envid
      && (checkperm ==> curenv == Some(e) || envs[e].parent == envs[curenv.value].id)
    }

    /** Every live environment is found by its id, and by no other. */
    lemma Envid2EnvExact(envid: int, checkperm: bool)
      requires EnvTable() && curenv.Some? && curenv.value < NENV && !envs[curenv.value].status.Free?
      ensures envid != 0 ==> forall e: nat :: Envid2Env(envid, checkperm) == Some(e) <==> Names(envid, checkperm, e)
      ensures Envid2Env(0, checkperm) == curenv
      ensures forall e :: 0 <= e < NENV && !envs[e].status.Free? ==> Envid2Env(envs[e].id, false) == Some(e)
      ensures forall d, e :: 0 <= d < e < NENV && !envs[d].status.Free? && !envs[e].status.Free? ==>
        envs[d].id != envs[e].id
    {
      hide Rooted, Chain, FreeSlots;
    }

    ghost predicate Calling()
      reads this
    {
      Quiet() && curenv.Some? && curenv.value < NENV && !envs[curenv.value].status.Free?
    }

    /** The part of sys_page_alloc after its checks: page_alloc, page_insert, and page_free if that fails. */
    method AllocInsert(e: nat, va: nat, perm: Flags) returns (r: Code)
      requires Quiet() && e < NENV && !envs[e].status.Free? && Pdx(va) < PDX_UTOP
      modifies this`ref, this`link, this`head, this`ram, this`view, this`held, this`loose
      ensures Quiet() && (r == Ok || r == NoMem)
      ensures var k := Slot(e, Pdx(va), Ptx(va));
        && UserSlot(old(view), k)
        && view == Apply(old(view), Op.PageAlloc(k, perm))
        && (r == NoMem <==> |old(view).free| < 1 + TableCost(old(view), k))
        && (r == NoMem ==> view == old(view))
        && (r == Ok ==> OnlySlot(old(view), view, k, Mapping(old(view).free[0], Or(perm, PTE_P))))
        && (r == Ok ==> ZeroPage(view, ram, k))
      ensures PagesKept(old(view), old(ram), ram)
    {
      hide During, Listed, Decodes, Chain, Rooted, FreeSlots, Named, IsTable, IsDir, Map, AddTable, Or, Pdx, Ptx;
      hide SameBut, PagesKept, TabFrame, FirstFree, OnlySlot, Incref;
      KeptSame(view, ram);
      LiveHasDir(envs, view.dirs, e);
      ghost var s0 := view;
      ghost var ram0 := ram;
      var pp := PageAlloc(true);
      if pp == None {
        return NoMem;
      }
      TakenFrame(cfg, s0);
      ghost var ram1 := ram;
      AllocFrame(cfg, s0, Slot(e, Pdx(va), Ptx(va)), perm);
      r := PageInsert(envs[e].pgdir.value, pp.value, va, perm, e);
      AllocWords(cfg, s0, ram0, ram1, ram, e, Tab(e, Pdx(va)), pp.value);
      if r == Ok {
      } else {
        PageFree(pp.value);
        assert {} + {pp.value} - {pp.value} == {};
        assert [pp.value] + s0.free[1..] == s0.free;
      }
    }

    /** sys_page_alloc; `perm` has the low 12 bits of its argument and `high` the others. */
    method SysPageAlloc(envid: int, va: nat, perm: Flags, high: bv20) returns (r: Code)
      requires Calling()
      modifies this`ref, this`link, this`head, this`ram, this`view, this`held, this`loose
      ensures Calling()
      ensures r == Inval <==> va >= UTOP || va % PGSIZE != 0 || !LegalPerm(perm) || high != 0
      ensures r == BadEnv <==> r != Inval && Envid2Env(envid, true) == None
      ensures r == Ok || r == NoMem ==>
        var k := Slot(Envid2Env(envid, true).value, Pdx(va), Ptx(va));
        && UserSlot(old(view), k)
        && view == Apply(old(view), Op.PageAlloc(k, perm))
        && (r == NoMem <==> |old(view).free| < 1 + TableCost(old(view), k))
        && (r == NoMem ==> view == old(view))
        && (r == Ok ==> OnlySlot(old(view), view, k, Mapping(old(view).free[0], Or(perm, PTE_P))))
        && (r == Ok ==> ZeroPage(view, ram, k))
      ensures PagesKept(old(view), old(ram), ram)
      ensures r == Inval || r == BadEnv ==> view == old(view) && ram == old(ram)
      ensures r != NoFreeEnv
    {
      hide ZeroPage, PagesKept, Valid, Rooted, Chain, FreeSlots, Named, LegalPerm, PageAllocCall, UserSlot, Pdx, Ptx;
      KeptSame(view, ram);
      if va >= UTOP || va % PGSIZE != 0 {
        return Inval;
      }
      if !LegalPerm(perm) || high != 0 {
        return Inval;
      }
      UserAddressesAreSlots(va, 0, 0);
      var env := Envid2Env(envid, true);
      if env == None {
        return BadEnv;
      }
      r := AllocInsert(env.value, va, perm);
    }

    /** The part of sys_page_map after its checks of addresses, permissions and environments. */
    method LookupInsert(src: nat, srcva: nat, dst: nat, dstva: nat, perm: Flags) returns (r: Code)
      requires Quiet() && src < NENV && dst < NENV && !envs[src].status.Free? && !envs[dst].status.Free?
      requires Pdx(srcva) < PDX_UTOP && Pdx(dstva) < PDX_UTOP
      modifies this`ref, this`link, this`head, this`ram, this`view, this`held, this`loose
      ensures Quiet()
      ensures var k, d := Slot(src, Pdx(srcva), Ptx(srcva)), Slot(dst, Pdx(dstva), Ptx(dstva));
        if !MayMap(old(view), k, perm) then r == Inval && view == old(view)
        else
          && UserSlot(old(view), d)
          && view == Apply(old(view), PageMap(k, d, perm))
          && r == (if |old(view).free| < TableCost(old(view), d) then NoMem else Ok)
          && (r == NoMem ==> view == old(view))
          && (r == Ok ==> OnlySlot(old(view), view, d, Mapping(old(view).pages[k].frame, Or(perm, PTE_P))))
      ensures PagesKept(old(view), old(ram), ram)
    {
      hide During, Listed, Decodes, Chain, Rooted, FreeSlots, Named, IsTable, IsDir, Map, AddTable, Or, Has, Pdx, Ptx;
      hide SameBut, PagesKept, TabFrame, FirstFree;
      KeptSame(view, ram);
      LiveHasDir(envs, view.dirs, src);
      LiveHasDir(envs, view.dirs, dst);
      var pp, pte := PageLookup(envs[src].pgdir.value, srcva, Some((0, 0)), src);
      if pp == None {
        return Inval;
      }
      ghost var k := Slot(src, Pdx(srcva), Ptx(srcva));
      EntryOf(cfg, view, ram, kern, k);
      if Has(perm, PTE_W) && !Has(ram[pte.value.0][pte.value.1].flags, PTE_W) {
        return Inval;
      }
      ghost var s0, ram0 := view, ram;
      MappedFrameIsData(cfg, s0, k);
      r := PageInsert(envs[dst].pgdir.value, pp.value, dstva, perm, dst);
      InsertKeeps(cfg, s0, ram0, ram, dst, Tab(dst, Pdx(dstva)));
      assert {} - {pp.value} == {};
      PageMapKeeps(cfg, s0, k, Slot(dst, Pdx(dstva), Ptx(dstva)), perm);
    }

    /** sys_page_map */
    method SysPageMap(srcid: int, srcva: nat, dstid: int, dstva: nat, perm: Flags, high: bv20) returns (r: Code)
      requires Calling()
      modifies this`ref, this`link, this`head, this`ram, this`view, this`held, this`loose
      ensures Calling()
      ensures var badVa := srcva >= UTOP || dstva >= UTOP || srcva % PGSIZE != 0 || dstva % PGSIZE != 0;
        var badArgs := badVa || !LegalPerm(perm) || high != 0;
        var badEnv := Envid2Env(srcid, true) == None || Envid2Env(dstid, true) == None;
        if badArgs then r == Inval && view == old(view)
        else if badEnv then r == BadEnv && view == old(view)
        else
          var src := Slot(Envid2Env(srcid, true).value, Pdx(srcva), Ptx(srcva));
          var dst := Slot(Envid2Env(dstid, true).value, Pdx(dstva), Ptx(dstva));
          if src !in old(view).pages || (Has(perm, PTE_W) && !Has(old(view).pages[src].flags, PTE_W))
          then r == Inval && view == old(view)
          else
            && UserSlot(old(view), dst)
            && view == Apply(old(view), PageMap(src, dst, perm))
            && r == (if Tab(dst.env, dst.pdx) !in old(view).tabs && old(view).free == [] then NoMem else Ok)
            && (r == NoMem ==> view == old(view))
            && (r == Ok ==> OnlySlot(old(view), view, dst, Mapping(old(view).pages[src].frame, Or(perm, PTE_P))))
      ensures PagesKept(old(view), old(ram), ram)
    {
      hide PagesKept, Valid, Rooted, Chain, FreeSlots, Named, LegalPerm, PageMapCall, UserSlot, Pdx, Ptx, Has;
      KeptSame(view, ram);
      if srcva >= UTOP || dstva >= UTOP || srcva % PGSIZE != 0 || dstva % PGSIZE != 0 {
        return Inval;
      }
      if !LegalPerm(perm) || high != 0 {
        return Inval;
      }
      UserAddressesAreSlots(srcva, 0, 0);
      UserAddressesAreSlots(dstva, 0, 0);
      var src, dst := Envid2Env(srcid, true), Envid2Env(dstid, true);
      if src == None || dst == None {
        return BadEnv;
      }
      r := LookupInsert(src.value, srcva, dst.value, dstva, perm);
    }

    /** sys_page_unmap */
    method SysPageUnmap(envid: int, va: nat) returns (r: Code)
      requires Calling()
      modifies this`ref, this`link, this`head, this`ram, this`view, this`held, this`loose
      ensures Calling()
      ensures if va >= UTOP || va % PGSIZE != 0 then r == Inval && view == old(view)
        else if Envid2Env(envid, true) == None then r == BadEnv && view == old(view)
        else
          var k := Slot(Envid2Env(envid, true).value, Pdx(va), Ptx(va));
          && r == Ok && view == Apply(old(view), PageUnmap(k))
          && view.pages == old(view.pages) - {k} && view.tabs == old(view.tabs) && view.dirs == old(view.dirs)
      ensures PagesKept(old(view), old(ram), ram)
    {
      hide During, Listed, Decodes, Chain, Rooted, FreeSlots, Named, Decref;
      hide SameBut, PagesKept, TabFrame;
      KeptSame(view, ram);
      if va >= UTOP || va % PGSIZE != 0 {
        return Inval;
      }
      UserAddressesAreSlots(va, 0, 0);
      var env := Envid2Env(envid, true);
      if env == None {
        return BadEnv;
      }
      LiveHasDir(envs, view.dirs, env.value);
      ghost var k := Slot(env.value, Pdx(va), Ptx(va));
      if k in view.pages {
        DecrefPushes(view.(pages := view.pages - {k}), view.pages[k].frame);
      }
      ghost var s0, ram0 := view, ram;
      PageRemove(envs[env.value].pgdir.value, va, env.value);
      RemoveKeeps(cfg, s0, ram0, ram, env.value, Tab(env.value, Pdx(va)));
      return Ok;
    }

    /** sys_exofork: the child has an empty address space and does not run yet. */
    method SysExofork() returns (r: Code, e: nat)
      requires Calling()
      modifies this`ref, this`link, this`head, this`ram, this`view, this`loose, this`envs, this`envHead, this`envFree
      ensures Calling()
      ensures if old(envFree) == [] then r == NoFreeEnv else if old(view.free) == [] then r == NoMem else r == Ok
      ensures r != Ok ==> view == old(view) && envs == old(envs)
      ensures r == Ok ==>
        && e == old(envFree)[0] && e < NENV && old(envs[e]).status.Free? && e !in old(view.dirs)
        && view == Apply(old(view), Op.EnvAlloc(e))
        && view.dirs == old(view.dirs)[e := old(view.free)[0]] && view.tabs == old(view.tabs)
        && view.pages == old(view.pages) && (forall k :: k in view.pages ==> k.env != e)
        && envs == old(envs)[e := Env(envs[e].id, old(envs[curenv.value].id), NotRunnable, Some(view.dirs[e]))]
        && envs[e].id != old(envs[e]).id && (forall d :: 0 <= d < NENV && d != e ==> envs[d].id != envs[e].id)
    {
      hide During, Listed, Decodes, Chain, Rooted, FreeSlots, Named, NextId;
      ghost var s0 := view;
      r, e := EnvAlloc(envs[curenv.value].id);
      if r == Ok {
        FreshSpace(cfg, s0, old(envs), e);
        Suspend(envs, envFree, view.dirs, e);
        SameName(envs, e, envs[e].(status := NotRunnable));
        envs := envs[e := envs[e].(status := NotRunnable)];
      }
    }

    // ------------------------------------------------------------ hardware

    /**
     A user-mode store of one word.  The MMU walks both levels and requires
     present, writable and user at each (section 4.6 of Intel SDM volume 3A).
     */
    method UserStore(e: nat, va: nat, x: Entry) returns (fault: bool)
      requires Quiet() && e < NENV && !envs[e].status.Free? && va < UTOP
      modifies this`ram
      ensures Quiet()
      ensures var k := Slot(e, Pdx(va), Ptx(va));
        !fault <==> k in view.pages && Has(view.pages[k].flags, PTE_W) && Has(view.pages[k].flags, PTE_U)
      ensures fault ==> ram == old(ram)
      ensures !fault ==>
        var f := view.pages[Slot(e, Pdx(va), Ptx(va))].frame;
        && f < |old(ram)| && va % PGSIZE / 4 < |old(ram)[f]|
        && ram == Store(old(ram), f, va % PGSIZE / 4, x)
    {
      hide During, Listed, Decodes, Chain, Rooted, FreeSlots, Named, Has, Covers;
      LiveHasDir(envs, view.dirs, e);
      UserPdx(va);
      ghost var k := Slot(e, Pdx(va), Ptx(va));
      Translated(cfg, view, ram, kern, k);
      var pde := ram[envs[e].pgdir.value][Pdx(va)];
      if !(Present(pde) && Has(pde.flags, PTE_W) && Has(pde.flags, PTE_U)) {
        return true;
      }
      var pte := ram[pde.frame][Ptx(va)];
      if !(Present(pte) && Has(pte.flags, PTE_W) && Has(pte.flags, PTE_U)) {
        return true;
      }
      DataFrameStore(cfg, view, ram, kern, k, va % PGSIZE / 4, x);
      ram := Store(ram, pte.frame, va % PGSIZE / 4, x);
      return false;
    }
  }
}

