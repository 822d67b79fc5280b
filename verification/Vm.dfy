/**
 Page accounting over all address spaces.  The two-level tables appear here as
 flat maps from a slot to what it holds; `ref` and `free` are the kernel's
 pp_ref fields and page_free_list.
 */
module Vm {
  import opened Wrappers
  import opened Common
  import opened Mmu

  /** The user page (pdx, ptx) of environment `env`. */
  datatype Slot = Slot(env: nat, pdx: nat, ptx: nat)

  /** The user directory entry `pdx` of environment `env`. */
  datatype Tab = Tab(env: nat, pdx: nat)

  datatype Mapping = Mapping(frame: nat, flags: Flags)

  datatype State = State(
    ref: seq<nat>,
    free: seq<nat>,
    dirs: map<nat, nat>,
    tabs: map<Tab, nat>,
    pages: map<Slot, Mapping>)

  /** Physical memory: frames below `npages`, of which boot keeps `reserved`. */
  datatype Ram = Ram(npages: nat, reserved: set<nat>) {
    predicate Usable(f: int) {
      0 <= f < npages && f !in reserved
    }
  }

  // ---------------------------------------------------------------- counting

  ghost function PageUsers(pages: map<Slot, Mapping>, f: nat): set<Slot> {
    set k | k in pages && pages[k].frame == f
  }

  ghost function TabUsers(tabs: map<Tab, nat>, f: nat): set<Tab> {
    set k | k in tabs && tabs[k] == f
  }

  ghost function DirUsers(dirs: map<nat, nat>, f: nat): set<nat> {
    set e | e in dirs && dirs[e] == f
  }

  ghost function Count(dirs: map<nat, nat>, tabs: map<Tab, nat>, pages: map<Slot, Mapping>, f: nat): nat {
    |PageUsers(pages, f)| + |TabUsers(tabs, f)| + |DirUsers(dirs, f)|
  }

  /** How many table entries, directory entries and environments use frame `f`. */
  ghost function Uses(s: State, f: nat): nat {
    Count(s.dirs, s.tabs, s.pages, f)
  }

  // -------------------------------------------------------------- invariant

  ghost predicate IsDir(s: State, f: nat) {
    exists e :: e in s.dirs && s.dirs[e] == f
  }

  ghost predicate IsTable(s: State, f: nat) {
    exists k :: k in s.tabs && s.tabs[k] == f
  }

  /** What a frame is used for. */
  datatype Role = Directory(env: nat) | Table(tab: Tab) | Data

  /**
   Slots sit below existing tables and tables below existing directories;
   every used frame is unreserved and has one role.
   */
  ghost predicate ShapeBy(r: Ram, dirs: map<nat, nat>, tabs: map<Tab, nat>, pages: map<Slot, Mapping>,
                          role: map<nat, Role>)
  {
    && (forall f :: f in role ==> r.Usable(f))
    && (forall e :: e in dirs ==> dirs[e] in role && role[dirs[e]] == Directory(e))
    && (forall k :: k in tabs ==>
          k.env in dirs && k.pdx < PDX_UTOP && tabs[k] in role && role[tabs[k]] == Table(k))
    && (forall k :: k in pages ==>
          Tab(k.env, k.pdx) in tabs && k.ptx < NPTENTRIES
          && pages[k].frame in role && role[pages[k].frame] == Data)
  }

  /** Directories and tables are private, and no table entry maps one of them. */
  ghost predicate Shape(r: Ram, s: State) {
    exists role :: ShapeBy(r, s.dirs, s.tabs, s.pages, role)
  }

  /** pp_ref is the number of uses, plus the references `held` by the kernel code in progress. */
  ghost predicate Counted(r: Ram, s: State, held: multiset<nat>) {
    && |s.ref| == r.npages
    && (forall f: nat :: r.Usable(f) ==> s.ref[f] == Uses(s, f) + held[f])
  }

  /** The free list has no duplicates and holds exactly the unreferenced frames, except those in `loose`. */
  ghost predicate FreeExact(r: Ram, s: State, loose: set<nat>)
    requires |s.ref| == r.npages
  {
    && (forall f :: f in loose ==> r.Usable(f) && s.ref[f] == 0)
    && NoDup(s.free)
    && (forall f: nat :: f in s.free <==> r.Usable(f) && s.ref[f] == 0 && f !in loose)
  }

  ghost predicate Ledger(r: Ram, s: State, held: multiset<nat>, loose: set<nat>) {
    && Counted(r, s, held)
    && FreeExact(r, s, loose)
  }

  /** The invariant while kernel code is holding references `held` and frames `loose`. */
  ghost predicate During(r: Ram, s: State, held: multiset<nat>, loose: set<nat>) {
    Shape(r, s) && Ledger(r, s, held, loose)
  }

  /** The invariant between system calls. */
  ghost predicate Inv(r: Ram, s: State) {
    During(r, s, multiset{}, {})
  }

  // ------------------------------------------------------------- operations

  function Incref(s: State, f: nat): State {
    if f < |s.ref| then s.(ref := s.ref[f := s.ref[f] + 1]) else s
  }

  /** page_decref: the frame goes back to the free list when its last reference goes. */
  function Decref(s: State, f: nat): State {
    if f >= |s.ref| || s.ref[f] == 0 then s
    else
      var s1 := s.(ref := s.ref[f := s.ref[f] - 1]);
      if s1.ref[f] == 0 then s1.(free := [f] + s.free) else s1
  }

  function Take(s: State): State
    requires s.free != []
  {
    s.(free := s.free[1..])
  }

  /** page_remove */
  function Unmap(s: State, k: Slot): State {
    if k in s.pages then Decref(s.(pages := s.pages - {k}), s.pages[k].frame) else s
  }

  /** page_insert, once the page table exists */
  function Map(s: State, k: Slot, m: Mapping): State {
    var s1 := Unmap(Incref(s, m.frame), k);
    s1.(pages := s1.pages[k := m])
  }

  /** pgdir_walk with `create` */
  function AddTable(s: State, k: Tab): State
    requires k in s.tabs || s.free != []
  {
    if k in s.tabs then s
    else
      var f := s.free[0];
      Incref(Take(s), f).(tabs := s.tabs[k := f])
  }

  function AddDir(s: State, e: nat): State
    requires s.free != []
  {
    var f := s.free[0];
    Incref(Take(s), f).(dirs := s.dirs[e := f])
  }

  function DropTable(s: State, k: Tab): State {
    if k in s.tabs then Decref(s.(tabs := s.tabs - {k}), s.tabs[k]) else s
  }

  function DropDir(s: State, e: nat): State {
    if e in s.dirs then Decref(s.(dirs := s.dirs - {e}), s.dirs[e]) else s
  }

  /** The inner loop of env_free, up to table entry `t`. */
  function ClearEntries(s: State, e: nat, d: nat, t: nat): State {
    if t == 0 then s else Unmap(ClearEntries(s, e, d, t - 1), Slot(e, d, t - 1))
  }

  function ClearTable(s: State, e: nat, d: nat): State {
    if Tab(e, d) in s.tabs then DropTable(ClearEntries(s, e, d, NPTENTRIES), Tab(e, d)) else s
  }

  /** The outer loop of env_free, up to directory entry `d`. */
  function ClearTables(s: State, e: nat, d: nat): State {
    if d == 0 then s else ClearTable(ClearTables(s, e, d - 1), e, d - 1)
  }

  function FreeEnv(s: State, e: nat): State {
    DropDir(ClearTables(s, e, PDX_UTOP), e)
  }

  // ------------------------------------------------------- counting lemmas

  lemma PageUsersPut(pages: map<Slot, Mapping>, k: Slot, m: Mapping, f: nat)
    requires k !in pages
    ensures |PageUsers(pages[k := m], f)| == |PageUsers(pages, f)| + (if m.frame == f then 1 else 0)
  {
    var after := PageUsers(pages[k := m], f);
    if m.frame == f {
      assert after == PageUsers(pages, f) + {k};
    } else {
      assert after == PageUsers(pages, f);
    }
  }

  lemma PageUsersDel(pages: map<Slot, Mapping>, k: Slot, f: nat)
    requires k in pages
    ensures |PageUsers(pages, f)| == |PageUsers(pages - {k}, f)| + (if pages[k].frame == f then 1 else 0)
  {
    PageUsersPut(pages - {k}, k, pages[k], f);
    assert (pages - {k})[k := pages[k]] == pages;
  }

  lemma TabUsersPut(tabs: map<Tab, nat>, k: Tab, g: nat, f: nat)
    requires k !in tabs
    ensures |TabUsers(tabs[k := g], f)| == |TabUsers(tabs, f)| + (if g == f then 1 else 0)
  {
    var after := TabUsers(tabs[k := g], f);
    if g == f {
      assert after == TabUsers(tabs, f) + {k};
    } else {
      assert after == TabUsers(tabs, f);
    }
  }

  lemma TabUsersDel(tabs: map<Tab, nat>, k: Tab, f: nat)
    requires k in tabs
    ensures |TabUsers(tabs, f)| == |TabUsers(tabs - {k}, f)| + (if tabs[k] == f then 1 else 0)
  {
    TabUsersPut(tabs - {k}, k, tabs[k], f);
    assert (tabs - {k})[k := tabs[k]] == tabs;
  }

  lemma DirUsersPut(dirs: map<nat, nat>, e: nat, g: nat, f: nat)
    requires e !in dirs
    ensures |DirUsers(dirs[e := g], f)| == |DirUsers(dirs, f)| + (if g == f then 1 else 0)
  {
    var after := DirUsers(dirs[e := g], f);
    if g == f {
      assert after == DirUsers(dirs, f) + {e};
    } else {
      assert after == DirUsers(dirs, f);
    }
  }

  lemma DirUsersDel(dirs: map<nat, nat>, e: nat, f: nat)
    requires e in dirs
    ensures |DirUsers(dirs, f)| == |DirUsers(dirs - {e}, f)| + (if dirs[e] == f then 1 else 0)
  {
    DirUsersPut(dirs - {e}, e, dirs[e], f);
    assert (dirs - {e})[e := dirs[e]] == dirs;
  }

  /** A frame without uses plays no role. */
  lemma UnusedHasNoRole(s: State, f: nat)
    requires Uses(s, f) == 0
    ensures forall k :: k in s.pages ==> s.pages[k].frame != f
    ensures !IsTable(s, f) && !IsDir(s, f)
  {
    forall k | k in s.pages ensures s.pages[k].frame != f {
      assert s.pages[k].frame == f ==> k in PageUsers(s.pages, f);
    }
    assert forall k :: k in s.tabs && s.tabs[k] == f ==> k in TabUsers(s.tabs, f);
    assert forall e :: e in s.dirs && s.dirs[e] == f ==> e in DirUsers(s.dirs, f);
  }

  // ----------------------------------------------- the ledger, step by step

  lemma IncrefKeeps(r: Ram, s: State, held: multiset<nat>, loose: set<nat>, f: nat)
    requires Ledger(r, s, held, loose)
    requires r.Usable(f) && f !in s.free
    ensures Ledger(r, Incref(s, f), held + multiset{f}, loose - {f})
  {
  }

  lemma TakeKeeps(r: Ram, s: State, held: multiset<nat>, loose: set<nat>)
    requires Ledger(r, s, held, loose)
    requires s.free != []
    ensures Ledger(r, Take(s), held, loose + {s.free[0]})
    ensures r.Usable(s.free[0]) && s.ref[s.free[0]] == 0 && Uses(s, s.free[0]) == 0
    ensures s.free[0] !in Take(s).free && s.free[0] !in loose
  {
  }

  lemma PushKeeps(r: Ram, s: State, held: multiset<nat>, loose: set<nat>, f: nat)
    requires Ledger(r, s, held, loose)
    requires f in loose
    ensures Ledger(r, s.(free := [f] + s.free), held, loose - {f})
  {
  }

  lemma LowerKeeps(r: Ram, s: State, held: multiset<nat>, loose: set<nat>, f: nat)
    requires Ledger(r, s, held, loose)
    requires r.Usable(f) && held[f] > 0
    ensures s.ref[f] > 0
    ensures var s1 := s.(ref := s.ref[f := s.ref[f] - 1]);
      Ledger(r, s1, held - multiset{f}, if s1.ref[f] == 0 then loose + {f} else loose)
  {
  }

  lemma DecrefKeeps(r: Ram, s: State, held: multiset<nat>, loose: set<nat>, f: nat)
    requires Ledger(r, s, held, loose)
    requires r.Usable(f) && held[f] > 0
    ensures Ledger(r, Decref(s, f), held - multiset{f}, loose)
    ensures f !in loose
  {
    hide Count;
    assert f !in loose && f < |s.ref|;
    hide Ledger;
    LowerKeeps(r, s, held, loose, f);
    var s1 := s.(ref := s.ref[f := s.ref[f] - 1]);
    if s1.ref[f] == 0 {
      PushKeeps(r, s1, held - multiset{f}, loose + {f}, f);
      assert loose + {f} - {f} == loose;
    }
  }

  /** Changing who uses frames, with `held` changed to match, keeps the ledger. */
  lemma RelinkKeeps(r: Ram, s: State, s1: State, held: multiset<nat>, held1: multiset<nat>, loose: set<nat>)
    requires Ledger(r, s, held, loose)
    requires s1.ref == s.ref && s1.free == s.free
    requires forall g: nat :: r.Usable(g) ==> Uses(s1, g) + held1[g] == Uses(s, g) + held[g]
    ensures Ledger(r, s1, held1, loose)
  {
  }

  /** Removing a table entry turns its reference into a held one. */
  lemma UnlinkPageKeeps(r: Ram, s: State, k: Slot, held: multiset<nat>, loose: set<nat>)
    requires k in s.pages
    requires Ledger(r, s, held, loose)
    ensures Ledger(r, s.(pages := s.pages - {k}), held + multiset{s.pages[k].frame}, loose)
  {
    hide Ledger, PageUsers, TabUsers, DirUsers;
    var s1 := s.(pages := s.pages - {k});
    var held1 := held + multiset{s.pages[k].frame};
    forall g: nat | r.Usable(g) ensures Uses(s1, g) + held1[g] == Uses(s, g) + held[g] {
      PageUsersDel(s.pages, k, g);
    }
    RelinkKeeps(r, s, s1, held, held1, loose);
  }

  lemma LinkPageKeeps(r: Ram, s: State, k: Slot, m: Mapping, held: multiset<nat>, loose: set<nat>)
    requires k !in s.pages && held[m.frame] > 0
    requires Ledger(r, s, held, loose)
    ensures Ledger(r, s.(pages := s.pages[k := m]), held - multiset{m.frame}, loose)
  {
    hide Ledger, PageUsers, TabUsers, DirUsers;
    var s1 := s.(pages := s.pages[k := m]);
    var held1 := held - multiset{m.frame};
    forall g: nat | r.Usable(g) ensures Uses(s1, g) + held1[g] == Uses(s, g) + held[g] {
      PageUsersPut(s.pages, k, m, g);
    }
    RelinkKeeps(r, s, s1, held, held1, loose);
  }

  lemma LinkTableKeeps(r: Ram, s: State, k: Tab, f: nat, held: multiset<nat>, loose: set<nat>)
    requires k !in s.tabs && held[f] > 0
    requires Ledger(r, s, held, loose)
    ensures Ledger(r, s.(tabs := s.tabs[k := f]), held - multiset{f}, loose)
  {
    hide Ledger, PageUsers, TabUsers, DirUsers;
    var s1 := s.(tabs := s.tabs[k := f]);
    var held1 := held - multiset{f};
    forall g: nat | r.Usable(g) ensures Uses(s1, g) + held1[g] == Uses(s, g) + held[g] {
      TabUsersPut(s.tabs, k, f, g);
    }
    RelinkKeeps(r, s, s1, held, held1, loose);
  }

  lemma UnlinkTableKeeps(r: Ram, s: State, k: Tab, held: multiset<nat>, loose: set<nat>)
    requires k in s.tabs
    requires Ledger(r, s, held, loose)
    ensures Ledger(r, s.(tabs := s.tabs - {k}), held + multiset{s.tabs[k]}, loose)
  {
    hide Ledger, PageUsers, TabUsers, DirUsers;
    var s1 := s.(tabs := s.tabs - {k});
    var held1 := held + multiset{s.tabs[k]};
    forall g: nat | r.Usable(g) ensures Uses(s1, g) + held1[g] == Uses(s, g) + held[g] {
      TabUsersDel(s.tabs, k, g);
    }
    RelinkKeeps(r, s, s1, held, held1, loose);
  }

  lemma LinkDirKeeps(r: Ram, s: State, e: nat, f: nat, held: multiset<nat>, loose: set<nat>)
    requires e !in s.dirs && held[f] > 0
    requires Ledger(r, s, held, loose)
    ensures Ledger(r, s.(dirs := s.dirs[e := f]), held - multiset{f}, loose)
  {
    hide Ledger, PageUsers, TabUsers, DirUsers;
    var s1 := s.(dirs := s.dirs[e := f]);
    var held1 := held - multiset{f};
    forall g: nat | r.Usable(g) ensures Uses(s1, g) + held1[g] == Uses(s, g) + held[g] {
      DirUsersPut(s.dirs, e, f, g);
    }
    RelinkKeeps(r, s, s1, held, held1, loose);
  }

  lemma UnlinkDirKeeps(r: Ram, s: State, e: nat, held: multiset<nat>, loose: set<nat>)
    requires e in s.dirs
    requires Ledger(r, s, held, loose)
    ensures Ledger(r, s.(dirs := s.dirs - {e}), held + multiset{s.dirs[e]}, loose)
  {
    hide Ledger, PageUsers, TabUsers, DirUsers;
    var s1 := s.(dirs := s.dirs - {e});
    var held1 := held + multiset{s.dirs[e]};
    forall g: nat | r.Usable(g) ensures Uses(s1, g) + held1[g] == Uses(s, g) + held[g] {
      DirUsersDel(s.dirs, e, g);
    }
    RelinkKeeps(r, s, s1, held, held1, loose);
  }

  // ------------------------------------------------ the shape, step by step

  lemma PutPageShape(r: Ram, dirs: map<nat, nat>, tabs: map<Tab, nat>, pages: map<Slot, Mapping>,
                     role: map<nat, Role>, k: Slot, m: Mapping)
    requires ShapeBy(r, dirs, tabs, pages, role)
    requires Tab(k.env, k.pdx) in tabs && k.ptx < NPTENTRIES && r.Usable(m.frame)
    requires forall t :: t in tabs ==> tabs[t] != m.frame
    requires forall e :: e in dirs ==> dirs[e] != m.frame
    ensures ShapeBy(r, dirs, tabs, pages[k := m], role[m.frame := Data])
  {
  }

  lemma PutTableShape(r: Ram, dirs: map<nat, nat>, tabs: map<Tab, nat>, pages: map<Slot, Mapping>,
                      role: map<nat, Role>, k: Tab, f: nat)
    requires ShapeBy(r, dirs, tabs, pages, role)
    requires k.env in dirs && k.pdx < PDX_UTOP && r.Usable(f)
    requires forall t :: t in tabs ==> tabs[t] != f
    requires forall e :: e in dirs ==> dirs[e] != f
    requires forall p :: p in pages ==> pages[p].frame != f
    ensures ShapeBy(r, dirs, tabs[k := f], pages, role[f := Table(k)])
  {
  }

  lemma PutDirShape(r: Ram, dirs: map<nat, nat>, tabs: map<Tab, nat>, pages: map<Slot, Mapping>,
                    role: map<nat, Role>, e: nat, f: nat)
    requires ShapeBy(r, dirs, tabs, pages, role)
    requires e !in dirs && r.Usable(f)
    requires forall t :: t in tabs ==> tabs[t] != f
    requires forall e :: e in dirs ==> dirs[e] != f
    requires forall p :: p in pages ==> pages[p].frame != f
    ensures ShapeBy(r, dirs[e := f], tabs, pages, role[f := Directory(e)])
  {
  }

  lemma UnlinkPageShape(r: Ram, s: State, k: Slot)
    requires Shape(r, s)
    ensures Shape(r, s.(pages := s.pages - {k}))
  {
    var role :| ShapeBy(r, s.dirs, s.tabs, s.pages, role);
    assert ShapeBy(r, s.dirs, s.tabs, s.pages - {k}, role);
  }

  lemma LinkPageShape(r: Ram, s: State, k: Slot, m: Mapping)
    requires Shape(r, s)
    requires Tab(k.env, k.pdx) in s.tabs && k.ptx < NPTENTRIES && r.Usable(m.frame)
    requires !IsTable(s, m.frame) && !IsDir(s, m.frame)
    ensures Shape(r, s.(pages := s.pages[k := m]))
  {
    hide ShapeBy;
    var role :| ShapeBy(r, s.dirs, s.tabs, s.pages, role);
    PutPageShape(r, s.dirs, s.tabs, s.pages, role, k, m);
  }

  lemma LinkTableShape(r: Ram, s: State, k: Tab, f: nat)
    requires Shape(r, s)
    requires k.env in s.dirs && k.pdx < PDX_UTOP && r.Usable(f) && Uses(s, f) == 0
    ensures Shape(r, s.(tabs := s.tabs[k := f]))
  {
    hide ShapeBy, Count;
    UnusedHasNoRole(s, f);
    var role :| ShapeBy(r, s.dirs, s.tabs, s.pages, role);
    PutTableShape(r, s.dirs, s.tabs, s.pages, role, k, f);
  }

  lemma UnlinkTableShape(r: Ram, s: State, k: Tab)
    requires Shape(r, s)
    requires forall p :: p in s.pages ==> Tab(p.env, p.pdx) != k
    ensures Shape(r, s.(tabs := s.tabs - {k}))
  {
    var role :| ShapeBy(r, s.dirs, s.tabs, s.pages, role);
    assert ShapeBy(r, s.dirs, s.tabs - {k}, s.pages, role);
  }

  lemma LinkDirShape(r: Ram, s: State, e: nat, f: nat)
    requires Shape(r, s)
    requires e !in s.dirs && r.Usable(f) && Uses(s, f) == 0
    ensures Shape(r, s.(dirs := s.dirs[e := f]))
  {
    hide ShapeBy, Count;
    UnusedHasNoRole(s, f);
    var role :| ShapeBy(r, s.dirs, s.tabs, s.pages, role);
    PutDirShape(r, s.dirs, s.tabs, s.pages, role, e, f);
  }

  lemma UnlinkDirShape(r: Ram, s: State, e: nat)
    requires Shape(r, s)
    requires forall k :: k in s.tabs ==> k.env != e
    ensures Shape(r, s.(dirs := s.dirs - {e}))
  {
    var role :| ShapeBy(r, s.dirs, s.tabs, s.pages, role);
    assert ShapeBy(r, s.dirs - {e}, s.tabs, s.pages, role);
  }

  /** Shape only looks at the three maps. */
  lemma SameMaps(r: Ram, s: State, s1: State)
    requires Shape(r, s)
    requires s1.dirs == s.dirs && s1.tabs == s.tabs && s1.pages == s.pages
    ensures Shape(r, s1)
  {
  }

  lemma PageFrameRole(r: Ram, s: State, k: Slot)
    requires Shape(r, s) && k in s.pages
    ensures var f := s.pages[k].frame; r.Usable(f) && !IsTable(s, f) && !IsDir(s, f)
  {
  }

  lemma TableFrameUsable(r: Ram, s: State, k: Tab)
    requires Shape(r, s) && k in s.tabs
    ensures r.Usable(s.tabs[k])
  {
  }

  lemma DirFrameUsable(r: Ram, s: State, e: nat)
    requires Shape(r, s) && e in s.dirs
    ensures r.Usable(s.dirs[e])
  {
  }

  lemma Nested(r: Ram, s: State)
    requires Shape(r, s)
    ensures forall k :: k in s.pages ==> Tab(k.env, k.pdx) in s.tabs && k.ptx < NPTENTRIES
    ensures forall k :: k in s.tabs ==> k.env in s.dirs && k.pdx < PDX_UTOP
  {
  }

  // ------------------------------------------------- whole kernel operations

  ghost predicate Suffix(short: seq<nat>, long: seq<nat>) {
    && |short| <= |long|
    && forall i :: 0 <= i < |short| ==> short[i] == long[|long| - |short| + i]
  }

  lemma SuffixSelf(a: seq<nat>)
    ensures Suffix(a, a)
  {
  }

  lemma SuffixTransitive(a: seq<nat>, b: seq<nat>, c: seq<nat>)
    requires Suffix(a, b) && Suffix(b, c)
    ensures Suffix(a, c)
  {
  }

  /** Dropping a reference only ever pushes onto the free list. */
  lemma DecrefPushes(s: State, f: nat)
    ensures var s1 := Decref(s, f);
      && s1.pages == s.pages && s1.tabs == s.tabs && s1.dirs == s.dirs
      && Suffix(s.free, s1.free)
  {
  }

  lemma UnmapKeeps(r: Ram, s: State, k: Slot, held: multiset<nat>, loose: set<nat>)
    requires During(r, s, held, loose)
    ensures var s1 := Unmap(s, k);
      && During(r, s1, held, loose)
      && s1.pages == s.pages - {k} && s1.tabs == s.tabs && s1.dirs == s.dirs
      && Suffix(s.free, s1.free)
  {
    hide Shape, Ledger, Decref, Suffix;
    SuffixSelf(s.free);
    if k in s.pages {
      var f := s.pages[k].frame;
      PageFrameRole(r, s, k);
      var s1 := s.(pages := s.pages - {k});
      UnlinkPageKeeps(r, s, k, held, loose);
      DecrefKeeps(r, s1, held + multiset{f}, loose, f);
      assert held + multiset{f} - multiset{f} == held;
      UnlinkPageShape(r, s, k);
      DecrefPushes(s1, f);
      SameMaps(r, s1, Unmap(s, k));
    }
  }

  lemma MapKeeps(r: Ram, s: State, k: Slot, m: Mapping, held: multiset<nat>, loose: set<nat>)
    requires During(r, s, held, loose)
    requires Tab(k.env, k.pdx) in s.tabs && k.ptx < NPTENTRIES
    requires r.Usable(m.frame) && m.frame !in s.free && !IsTable(s, m.frame) && !IsDir(s, m.frame)
    ensures var s1 := Map(s, k, m);
      && During(r, s1, held, loose - {m.frame})
      && s1.pages == s.pages[k := m] && s1.tabs == s.tabs && s1.dirs == s.dirs
  {
    hide Shape, Ledger, Unmap, Suffix;
    var f := m.frame;
    var s1 := Incref(s, f);
    IncrefKeeps(r, s, held, loose, f);
    SameMaps(r, s, s1);
    UnmapKeeps(r, s1, k, held + multiset{f}, loose - {f});
    var s2 := Unmap(s1, k);
    LinkPageKeeps(r, s2, k, m, held + multiset{f}, loose - {f});
    assert held + multiset{f} - multiset{f} == held;
    LinkPageShape(r, s2, k, m);
    assert s2.pages[k := m] == s.pages[k := m];
  }

  /** Taking the first free frame and giving it a reference. */
  lemma TakeRefKeeps(r: Ram, s: State, held: multiset<nat>, loose: set<nat>)
    requires During(r, s, held, loose)
    requires s.free != []
    ensures var f := s.free[0];
      && During(r, Incref(Take(s), f), held + multiset{f}, loose)
      && r.Usable(f) && Uses(Incref(Take(s), f), f) == 0
  {
  }

  lemma AddTableMaps(s: State, k: Tab)
    requires k in s.tabs || s.free != []
    ensures var s1 := AddTable(s, k);
      && s1.tabs.Keys == s.tabs.Keys + {k} && s1.pages == s.pages && s1.dirs == s.dirs
      && (forall t :: t in s.tabs ==> s1.tabs[t] == s.tabs[t])
  {
  }

  lemma AddTableKeeps(r: Ram, s: State, k: Tab, held: multiset<nat>, loose: set<nat>)
    requires During(r, s, held, loose)
    requires k in s.tabs || s.free != []
    requires k.env in s.dirs && k.pdx < PDX_UTOP
    ensures During(r, AddTable(s, k), held, loose)
  {
    hide Shape, Ledger, Uses;
    if k !in s.tabs {
      var f := s.free[0];
      TakeRefKeeps(r, s, held, loose);
      var s1 := Incref(Take(s), f);
      LinkTableKeeps(r, s1, k, f, held + multiset{f}, loose);
      assert held + multiset{f} - multiset{f} == held;
      LinkTableShape(r, s1, k, f);
    }
  }

  lemma AddDirKeeps(r: Ram, s: State, e: nat)
    requires Inv(r, s)
    requires s.free != [] && e !in s.dirs
    ensures Inv(r, AddDir(s, e))
    ensures var s1 := AddDir(s, e);
      s1.dirs == s.dirs[e := s.free[0]] && s1.tabs == s.tabs && s1.pages == s.pages && s1.free == s.free[1..]
  {
    hide Shape, Ledger, Uses;
    var f := s.free[0];
    TakeRefKeeps(r, s, multiset{}, {});
    var s1 := Incref(Take(s), f);
    LinkDirKeeps(r, s1, e, f, multiset{} + multiset{f}, {});
    assert multiset{} + multiset{f} - multiset{f} == multiset{};
    LinkDirShape(r, s1, e, f);
  }

  lemma DropTableKeeps(r: Ram, s: State, k: Tab)
    requires Inv(r, s)
    requires k in s.tabs
    requires forall p :: p in s.pages ==> Tab(p.env, p.pdx) != k
    ensures var s1 := DropTable(s, k);
      && Inv(r, s1)
      && s1.pages == s.pages && s1.tabs == s.tabs - {k} && s1.dirs == s.dirs
      && Suffix(s.free, s1.free)
  {
    hide Shape, Ledger, Decref, Suffix;
    var f := s.tabs[k];
    TableFrameUsable(r, s, k);
    UnlinkTableKeeps(r, s, k, multiset{}, {});
    var s1 := s.(tabs := s.tabs - {k});
    DecrefKeeps(r, s1, multiset{} + multiset{f}, {}, f);
    assert multiset{} + multiset{f} - multiset{f} == multiset{};
    UnlinkTableShape(r, s, k);
    DecrefPushes(s1, f);
    SameMaps(r, s1, DropTable(s, k));
  }

  lemma DropDirKeeps(r: Ram, s: State, e: nat)
    requires Inv(r, s)
    requires e in s.dirs
    requires forall k :: k in s.tabs ==> k.env != e
    ensures var s1 := DropDir(s, e);
      && Inv(r, s1)
      && s1.pages == s.pages && s1.tabs == s.tabs && s1.dirs == s.dirs - {e}
      && Suffix(s.free, s1.free)
  {
    hide Shape, Ledger, Decref, Suffix;
    var f := s.dirs[e];
    DirFrameUsable(r, s, e);
    UnlinkDirKeeps(r, s, e, multiset{}, {});
    var s1 := s.(dirs := s.dirs - {e});
    DecrefKeeps(r, s1, multiset{} + multiset{f}, {}, f);
    assert multiset{} + multiset{f} - multiset{f} == multiset{};
    UnlinkDirShape(r, s, e);
    DecrefPushes(s1, f);
    SameMaps(r, s1, DropDir(s, e));
  }

  // -------------------------------------------------------------- env_free

  ghost function PagesWithout(pages: map<Slot, Mapping>, e: nat, d: nat, t: nat): map<Slot, Mapping> {
    map k | k in pages && !(k.env == e && k.pdx == d && k.ptx < t) :: pages[k]
  }

  lemma {:induction false} ClearEntriesEffect(r: Ram, s: State, e: nat, d: nat, t: nat)
    requires Inv(r, s)
    ensures var s1 := ClearEntries(s, e, d, t);
      && Inv(r, s1)
      && s1.pages == PagesWithout(s.pages, e, d, t) && s1.tabs == s.tabs && s1.dirs == s.dirs
      && Suffix(s.free, s1.free)
  {
    hide Shape, Ledger, Unmap, Suffix;
    if t == 0 {
      SuffixSelf(s.free);
    } else {
      ClearEntriesEffect(r, s, e, d, t - 1);
      var s1 := ClearEntries(s, e, d, t - 1);
      UnmapKeeps(r, s1, Slot(e, d, t - 1), multiset{}, {});
      SuffixTransitive(s.free, s1.free, ClearEntries(s, e, d, t).free);
      assert PagesWithout(s.pages, e, d, t) == PagesWithout(s.pages, e, d, t - 1) - {Slot(e, d, t - 1)};
    }
  }

  ghost function TabsFrom(tabs: map<Tab, nat>, e: nat, d: nat): map<Tab, nat> {
    map k | k in tabs && !(k.env == e && k.pdx < d) :: tabs[k]
  }

  ghost function PagesFrom(pages: map<Slot, Mapping>, e: nat, d: nat): map<Slot, Mapping> {
    map k | k in pages && !(k.env == e && k.pdx < d) :: pages[k]
  }

  lemma FromStep(tabs: map<Tab, nat>, pages: map<Slot, Mapping>, e: nat, d: nat)
    requires forall k :: k in pages ==> k.ptx < NPTENTRIES
    ensures TabsFrom(tabs, e, d + 1) == TabsFrom(tabs, e, d) - {Tab(e, d)}
    ensures PagesFrom(pages, e, d + 1) == PagesWithout(PagesFrom(pages, e, d), e, d, NPTENTRIES)
    ensures TabsFrom(tabs, e, 0) == tabs
    ensures PagesFrom(pages, e, 0) == pages
  {
  }

  /** `s1` is `s` without environment `e`'s tables below directory index `d`. */
  ghost predicate ClearedBelow(s: State, s1: State, e: nat, d: nat) {
    && s1.dirs == s.dirs
    && s1.tabs == TabsFrom(s.tabs, e, d)
    && s1.pages == PagesFrom(s.pages, e, d)
    && Suffix(s.free, s1.free)
  }

  lemma ClearTableEffect(r: Ram, s: State, e: nat, d: nat)
    requires Inv(r, s)
    ensures var s1 := ClearTable(s, e, d);
      && Inv(r, s1)
      && s1.dirs == s.dirs && s1.tabs == s.tabs - {Tab(e, d)}
      && s1.pages == PagesWithout(s.pages, e, d, NPTENTRIES)
      && Suffix(s.free, s1.free)
  {
    hide Shape, Ledger, DropTable, ClearEntries, Suffix;
    Nested(r, s);
    if Tab(e, d) in s.tabs {
      var s1 := ClearEntries(s, e, d, NPTENTRIES);
      ClearEntriesEffect(r, s, e, d, NPTENTRIES);
      DropTableKeeps(r, s1, Tab(e, d));
      SuffixTransitive(s.free, s1.free, ClearTable(s, e, d).free);
    } else {
      SuffixSelf(s.free);
      assert s.pages == PagesWithout(s.pages, e, d, NPTENTRIES);
    }
  }

  lemma {:induction false} ClearTablesEffect(r: Ram, s: State, e: nat, d: nat)
    requires Inv(r, s)
    ensures Inv(r, ClearTables(s, e, d))
    ensures ClearedBelow(s, ClearTables(s, e, d), e, d)
  {
    hide Shape, Ledger, ClearTable, Suffix, TabsFrom, PagesFrom, PagesWithout;
    Nested(r, s);
    if d == 0 {
      SuffixSelf(s.free);
      FromStep(s.tabs, s.pages, e, 0);
    } else {
      ClearTablesEffect(r, s, e, d - 1);
      var s1 := ClearTables(s, e, d - 1);
      ClearTableEffect(r, s1, e, d - 1);
      SuffixTransitive(s.free, s1.free, ClearTables(s, e, d).free);
      FromStep(s.tabs, s.pages, e, d - 1);
    }
  }

  /** How many of frame `f`'s uses belong to environment `e`. */
  ghost function UsesBy(s: State, e: nat, f: nat): nat {
    |set k | k in PageUsers(s.pages, f) && k.env == e|
    + |set k | k in TabUsers(s.tabs, f) && k.env == e|
    + (if e in s.dirs && s.dirs[e] == f then 1 else 0)
  }

  /** `s1` is `s` without anything of environment `e`. */
  ghost predicate WithoutEnv(s: State, s1: State, e: nat) {
    && s1.dirs == s.dirs - {e}
    && s1.tabs == (map k | k in s.tabs && k.env != e :: s.tabs[k])
    && s1.pages == (map k | k in s.pages && k.env != e :: s.pages[k])
  }

  lemma PageUsersSplit(s: State, s1: State, e: nat, f: nat)
    requires WithoutEnv(s, s1, e)
    ensures |PageUsers(s.pages, f)| == |PageUsers(s1.pages, f)| + |set k | k in PageUsers(s.pages, f) && k.env == e|
  {
    var mine := set k | k in PageUsers(s.pages, f) && k.env == e;
    assert PageUsers(s.pages, f) == PageUsers(s1.pages, f) + mine;
  }

  lemma TabUsersSplit(s: State, s1: State, e: nat, f: nat)
    requires WithoutEnv(s, s1, e)
    ensures |TabUsers(s.tabs, f)| == |TabUsers(s1.tabs, f)| + |set k | k in TabUsers(s.tabs, f) && k.env == e|
  {
    var mine := set k | k in TabUsers(s.tabs, f) && k.env == e;
    assert TabUsers(s.tabs, f) == TabUsers(s1.tabs, f) + mine;
  }

  lemma DirUsersSplit(s: State, s1: State, e: nat, f: nat)
    requires WithoutEnv(s, s1, e)
    ensures |DirUsers(s.dirs, f)| == |DirUsers(s1.dirs, f)| + if e in s.dirs && s.dirs[e] == f then 1 else 0
  {
    if e in s.dirs {
      DirUsersDel(s.dirs, e, f);
    } else {
      assert s1.dirs == s.dirs;
    }
  }

  lemma UsesSplit(s: State, s1: State, e: nat, f: nat)
    requires WithoutEnv(s, s1, e)
    ensures Uses(s, f) == Uses(s1, f) + UsesBy(s, e, f)
  {
    hide PageUsers, TabUsers, DirUsers, WithoutEnv;
    PageUsersSplit(s, s1, e, f);
    TabUsersSplit(s, s1, e, f);
    DirUsersSplit(s, s1, e, f);
  }

  lemma SuffixSplit(short: seq<nat>, long: seq<nat>)
    requires Suffix(short, long) && NoDup(long)
    ensures forall f :: f in long[..|long| - |short|] <==> f in long && f !in short
  {
    var n := |long| - |short|;
    assert long == long[..n] + long[n..];
    assert short == long[n..];
  }

  lemma CountsAfterFree(r: Ram, s: State, s1: State, e: nat)
    requires Ledger(r, s, multiset{}, {}) && Ledger(r, s1, multiset{}, {})
    requires WithoutEnv(s, s1, e) && Suffix(s.free, s1.free)
    ensures |s.ref| == |s1.ref| == r.npages
    ensures forall f: nat :: r.Usable(f) ==> s1.ref[f] == s.ref[f] - UsesBy(s, e, f)
    ensures forall f: nat :: f in s1.free[..|s1.free| - |s.free|] <==>
                             r.Usable(f) && s.ref[f] > 0 && s.ref[f] == UsesBy(s, e, f)
  {
    hide Count, WithoutEnv, UsesBy;
    forall f: nat | r.Usable(f) ensures s1.ref[f] == s.ref[f] - UsesBy(s, e, f) {
      UsesSplit(s, s1, e, f);
    }
    SuffixSplit(s.free, s1.free);
  }

  /** The effect env_free promises. */
  ghost predicate EnvFreed(r: Ram, s: State, s1: State, e: nat) {
    && WithoutEnv(s, s1, e)
    && |s.ref| == |s1.ref| == r.npages
    && (forall f: nat :: r.Usable(f) ==> s1.ref[f] == s.ref[f] - UsesBy(s, e, f))
    && Suffix(s.free, s1.free)
    && (forall f: nat :: f in s1.free[..|s1.free| - |s.free|] <==>
                         r.Usable(f) && s.ref[f] > 0 && s.ref[f] == UsesBy(s, e, f))
  }

  /**
   env_free leaves nothing of the environment, touches no other address space,
   lowers each count by exactly the environment's own uses, and puts on the
   free list exactly the frames that it alone was using.
   */
  lemma FreeEnvEffect(r: Ram, s: State, e: nat)
    requires Inv(r, s)
    requires e in s.dirs
    ensures Inv(r, FreeEnv(s, e))
    ensures EnvFreed(r, s, FreeEnv(s, e), e)
  {
    hide Shape, Ledger, Suffix, ClearTables, DropDir, UsesBy;
    var s0 := ClearTables(s, e, PDX_UTOP);
    var s1 := FreeEnv(s, e);
    ClearTablesEffect(r, s, e, PDX_UTOP);
    Nested(r, s);
    DropDirKeeps(r, s0, e);
    SuffixTransitive(s.free, s0.free, s1.free);
    assert WithoutEnv(s, s1, e);
    hide WithoutEnv;
    CountsAfterFree(r, s, s1, e);
  }

  // ------------------------------------------------------------------ runs

  /** What the system calls do to the address spaces, on live environments. */
  datatype Op =
    | EnvAlloc(env: nat)
    | PageAlloc(slot: Slot, perm: Flags)
    | PageMap(src: Slot, dst: Slot, perm: Flags)
    | PageUnmap(slot: Slot)
    | EnvFree(env: nat)

  predicate UserSlot(s: State, k: Slot) {
    k.env in s.dirs && k.pdx < PDX_UTOP && k.ptx < NPTENTRIES
  }

  predicate TableReady(s: State, k: Slot) {
    Tab(k.env, k.pdx) in s.tabs || s.free != []
  }

  /** sys_page_alloc: the data frame is taken first, and put back when no table can be had. */
  function PageAllocCall(s: State, k: Slot, perm: Flags): Option<State> {
    if s.free == [] || !TableReady(Take(s), k) then None
    else Some(Map(AddTable(Take(s), Tab(k.env, k.pdx)), k, Mapping(s.free[0], Or(perm, PTE_P))))
  }

  /** sys_page_map must not grant write access to a read-only page. */
  predicate MayMap(s: State, src: Slot, perm: Flags) {
    src in s.pages && (Has(perm, PTE_W) ==> Has(s.pages[src].flags, PTE_W))
  }

  /** sys_page_map, once its arguments are checked */
  function PageMapCall(s: State, src: Slot, dst: Slot, perm: Flags): Option<State>
    requires src in s.pages
  {
    if !TableReady(s, dst) then None
    else Some(Map(AddTable(s, Tab(dst.env, dst.pdx)), dst, Mapping(s.pages[src].frame, Or(perm, PTE_P))))
  }

  function OrElse(o: Option<State>, s: State): State {
    if o.Some? then o.value else s
  }

  function Apply(s: State, op: Op): State {
    match op
    case EnvAlloc(e) => if e !in s.dirs && s.free != [] then AddDir(s, e) else s
    case PageAlloc(k, perm) => if UserSlot(s, k) then OrElse(PageAllocCall(s, k, perm), s) else s
    case PageMap(src, dst, perm) =>
      if UserSlot(s, dst) && MayMap(s, src, perm) then OrElse(PageMapCall(s, src, dst, perm), s) else s
    case PageUnmap(k) => Unmap(s, k)
    case EnvFree(e) => if e in s.dirs then FreeEnv(s, e) else s
  }

  /** `states` is a run of `ops`. */
  ghost predicate Run(states: seq<State>, ops: seq<Op>) {
    && |states| == |ops| + 1
    && (forall i :: 0 <= i < |ops| ==> states[i + 1] == Apply(states[i], ops[i]))
  }

  /** The frame a caller is about to map does not become the new page table. */
  lemma AddedTableIsNot(s: State, k: Tab, f: nat)
    requires k in s.tabs || s.free != []
    requires f !in s.free && !IsTable(s, f) && !IsDir(s, f)
    ensures var u := AddTable(s, k); !IsTable(u, f) && !IsDir(u, f) && f !in u.free
  {
  }

  lemma UsedIsCounted(s: State, k: Slot)
    requires k in s.pages
    ensures Uses(s, s.pages[k].frame) > 0
  {
    assert k in PageUsers(s.pages, s.pages[k].frame);
  }

  lemma CountedIsNotFree(r: Ram, s: State, held: multiset<nat>, loose: set<nat>, f: nat)
    requires Ledger(r, s, held, loose) && r.Usable(f) && Uses(s, f) > 0
    ensures |s.ref| == r.npages && s.ref[f] > 0 && f !in s.free && f !in loose
  {
  }

  lemma MappedFrameIsData(r: Ram, s: State, k: Slot)
    requires Inv(r, s) && k in s.pages
    ensures var f := s.pages[k].frame;
      && r.Usable(f) && |s.ref| == r.npages && s.ref[f] > 0
      && f !in s.free && !IsTable(s, f) && !IsDir(s, f)
  {
    hide Shape, Ledger, IsTable, IsDir, Uses;
    PageFrameRole(r, s, k);
    UsedIsCounted(s, k);
    CountedIsNotFree(r, s, multiset{}, {}, s.pages[k].frame);
  }

  /** Exactly one slot changes, and its table exists; every other mapping and every existing table stays. */
  ghost predicate OnlySlot(s: State, s1: State, k: Slot, m: Mapping) {
    && s1.pages == s.pages[k := m]
    && s1.dirs == s.dirs
    && s1.tabs.Keys == s.tabs.Keys + {Tab(k.env, k.pdx)}
    && (forall t :: t in s.tabs ==> s1.tabs[t] == s.tabs[t])
  }

  /** How many frames it takes to have the table of slot k. */
  function TableCost(s: State, k: Slot): nat {
    if Tab(k.env, k.pdx) in s.tabs then 0 else 1
  }

  lemma PageAllocKeeps(r: Ram, s: State, k: Slot, perm: Flags)
    requires Inv(r, s) && UserSlot(s, k)
    ensures PageAllocCall(s, k, perm) == None <==> |s.free| < 1 + TableCost(s, k)
    ensures PageAllocCall(s, k, perm).Some? ==>
      && Inv(r, PageAllocCall(s, k, perm).value)
      && OnlySlot(s, PageAllocCall(s, k, perm).value, k, Mapping(s.free[0], Or(perm, PTE_P)))
      && Uses(s, s.free[0]) == 0
  {
    hide Shape, Ledger, Count, AddTable, Map, IsTable, IsDir;
    if PageAllocCall(s, k, perm) == None {
      return;
    }
    var f := s.free[0];
    var t := Take(s);
    TakeKeeps(r, s, multiset{}, {});
    assert {} + {f} == {f};
    SameMaps(r, s, t);
    UnusedHasNoRole(t, f);
    AddTableKeeps(r, t, Tab(k.env, k.pdx), multiset{}, {f});
    AddTableMaps(t, Tab(k.env, k.pdx));
    AddedTableIsNot(t, Tab(k.env, k.pdx), f);
    MapKeeps(r, AddTable(t, Tab(k.env, k.pdx)), k, Mapping(f, Or(perm, PTE_P)), multiset{}, {f});
    assert {f} - {f} == {};
  }

  lemma PageMapKeeps(r: Ram, s: State, src: Slot, dst: Slot, perm: Flags)
    requires Inv(r, s) && UserSlot(s, dst) && src in s.pages
    ensures PageMapCall(s, src, dst, perm) == None <==> |s.free| < TableCost(s, dst)
    ensures PageMapCall(s, src, dst, perm).Some? ==>
      && Inv(r, PageMapCall(s, src, dst, perm).value)
      && OnlySlot(s, PageMapCall(s, src, dst, perm).value, dst, Mapping(s.pages[src].frame, Or(perm, PTE_P)))
  {
    hide Shape, Ledger, Count, AddTable, Map, IsTable, IsDir;
    if PageMapCall(s, src, dst, perm) == None {
      return;
    }
    var f := s.pages[src].frame;
    MappedFrameIsData(r, s, src);
    var k := Tab(dst.env, dst.pdx);
    AddTableKeeps(r, s, k, multiset{}, {});
    AddTableMaps(s, k);
    AddedTableIsNot(s, k, f);
    MapKeeps(r, AddTable(s, k), dst, Mapping(f, Or(perm, PTE_P)), multiset{}, {});
    assert {} - {f} == {};
  }

  lemma ApplyKeeps(r: Ram, s: State, op: Op)
    requires Inv(r, s)
    ensures Inv(r, Apply(s, op))
  {
    hide Inv, AddDir, PageAllocCall, PageMapCall, Unmap, FreeEnv, EnvFreed, OnlySlot;
    match op
    case EnvAlloc(e) => if e !in s.dirs && s.free != [] { AddDirKeeps(r, s, e); }
    case PageAlloc(k, perm) =>
      if UserSlot(s, k) { PageAllocKeeps(r, s, k, perm); }
    case PageMap(src, dst, perm) =>
      if UserSlot(s, dst) && MayMap(s, src, perm) { PageMapKeeps(r, s, src, dst, perm); }
    case PageUnmap(k) => UnmapInv(r, s, k);
    case EnvFree(e) => if e in s.dirs { FreeEnvEffect(r, s, e); }
  }

  lemma UnmapInv(r: Ram, s: State, k: Slot)
    requires Inv(r, s)
    ensures Inv(r, Unmap(s, k)) && Unmap(s, k).pages == s.pages - {k}
  {
    hide Shape, Ledger, Unmap;
    UnmapKeeps(r, s, k, multiset{}, {});
  }

  lemma ReservedUnused(r: Ram, s: State, f: nat)
    requires Shape(r, s) && f in r.reserved
    ensures Uses(s, f) == 0
  {
    assert PageUsers(s.pages, f) == {} && TabUsers(s.tabs, f) == {} && DirUsers(s.dirs, f) == {};
  }

  /**
   In every run, each unreserved frame's pp_ref is its number of table entries,
   directory entries and directories, and the free list is duplicate-free and
   holds exactly the unreserved frames with count 0; reserved frames are neither free nor used.
   */
  lemma {:induction false} RunKeepsAccounting(r: Ram, states: seq<State>, ops: seq<Op>, i: nat)
    requires Run(states, ops) && i < |states| && Inv(r, states[0])
    ensures var s := states[i];
      && Inv(r, s)
      && |s.ref| == r.npages
      && (forall f: nat :: r.Usable(f) ==> s.ref[f] == Uses(s, f))
      && NoDup(s.free)
      && (forall f: nat :: f in s.free <==> r.Usable(f) && s.ref[f] == 0)
      && (forall f: nat :: f in r.reserved ==> f !in s.free && Uses(s, f) == 0)
  {
    hide Shape, Apply, Uses;
    if i > 0 {
      RunKeepsAccounting(r, states, ops, i - 1);
      ApplyKeeps(r, states[i - 1], ops[i - 1]);
    }
    forall f: nat | f in r.reserved ensures Uses(states[i], f) == 0 {
      ReservedUnused(r, states[i], f);
    }
  }

  /** Frame f is mapped, and nowhere writable. */
  ghost predicate ReadOnly(s: State, f: nat) {
    && (exists k :: k in s.pages && s.pages[k].frame == f)
    && (forall k :: k in s.pages && s.pages[k].frame == f ==> !Has(s.pages[k].flags, PTE_W))
  }

  lemma OrKeepsW(perm: Flags)
    ensures Has(Or(perm, PTE_P), PTE_W) <==> Has(perm, PTE_W)
  {
  }

  /** No system call makes a read-only frame writable: it is freed first. */
  lemma NoNewWriters(r: Ram, s: State, op: Op, f: nat)
    requires Inv(r, s) && ReadOnly(s, f)
    ensures var s1 := Apply(s, op); ReadOnly(s1, f) || forall k :: k in s1.pages ==> s1.pages[k].frame != f
  {
    hide Inv, AddDir, PageAllocCall, PageMapCall, Unmap, FreeEnv, Has, Or;
    var k0 :| k0 in s.pages && s.pages[k0].frame == f;
    MappedFrameIsData(r, s, k0);
    match op
    case EnvAlloc(e) => if e !in s.dirs && s.free != [] { AddDirKeeps(r, s, e); }
    case PageAlloc(k, perm) => if UserSlot(s, k) { PageAllocKeeps(r, s, k, perm); }
    case PageMap(src, dst, perm) =>
      if UserSlot(s, dst) && MayMap(s, src, perm) {
        OrKeepsW(perm);
        PageMapKeeps(r, s, src, dst, perm);
      }
    case PageUnmap(k) => UnmapInv(r, s, k);
    case EnvFree(e) => if e in s.dirs { FreeEnvEffect(r, s, e); }
  }

  /** Re-inserting the frame already mapped at a slot neither frees it nor changes a count. */
  lemma RemapSameFrame(r: Ram, s: State, k: Slot, m: Mapping)
    requires Inv(r, s) && k in s.pages && m.frame == s.pages[k].frame
    ensures Map(s, k, m) == s.(pages := s.pages[k := m])
  {
    hide Inv;
    MappedFrameIsData(r, s, k);
    var f := m.frame;
    assert s.ref[f := s.ref[f] + 1][f := s.ref[f]] == s.ref;
    assert (s.pages - {k})[k := m] == s.pages[k := m];
  }
}
