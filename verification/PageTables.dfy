/**
 The concrete representation: two-level tables stored in physical frames and the
 free list threaded through pp_link.  Each lemma says that one store into a frame
 is one update of the flat maps.
 */
module PageTables {
  import opened Wrappers
  import opened Common
  import opened Mmu
  import opened Vm

  /** The contents of a frame, as 1024 words. */
  type Page = seq<Entry>

  const ZEROS: Page := seq(NPTENTRIES, i => ZERO)

  function Store(ram: seq<Page>, f: nat, i: nat, x: Entry): seq<Page>
    requires f < |ram| && i < |ram[f]|
  {
    ram[f := ram[f][i := x]]
  }

  // --------------------------------------------------------------- free list

  function At(xs: seq<nat>, i: nat): Option<nat> {
    if i < |xs| then Some(xs[i]) else None
  }

  /** Following `link` from `head` visits exactly `xs`. */
  ghost predicate Chain(link: seq<Option<nat>>, head: Option<nat>, xs: seq<nat>) {
    && head == At(xs, 0)
    && (forall i :: 0 <= i < |xs| ==> xs[i] < |link| && link[xs[i]] == At(xs, i + 1))
  }

  lemma ChainPop(link: seq<Option<nat>>, head: Option<nat>, xs: seq<nat>)
    requires Chain(link, head, xs) && xs != []
    ensures Chain(link, link[xs[0]], xs[1..])
  {
  }

  lemma ChainPush(link: seq<Option<nat>>, head: Option<nat>, xs: seq<nat>, f: nat)
    requires Chain(link, head, xs) && f < |link| && f !in xs
    ensures Chain(link[f := head], Some(f), [f] + xs)
  {
  }

  /** The free list of pages: unlisted frames have a null link. */
  ghost predicate Listed(link: seq<Option<nat>>, head: Option<nat>, xs: seq<nat>) {
    && Chain(link, head, xs)
    && (forall f :: 0 <= f < |link| && f !in xs ==> link[f] == None)
  }

  lemma ListedPop(link: seq<Option<nat>>, head: Option<nat>, xs: seq<nat>)
    requires Listed(link, head, xs) && NoDup(xs) && xs != []
    ensures Listed(link[xs[0] := None], link[xs[0]], xs[1..])
  {
  }

  lemma ListedPush(link: seq<Option<nat>>, head: Option<nat>, xs: seq<nat>, f: nat)
    requires Listed(link, head, xs) && f < |link| && f !in xs
    ensures Listed(link[f := head], Some(f), [f] + xs)
  {
  }

  lemma ListedMisses(link: seq<Option<nat>>, head: Option<nat>, xs: seq<nat>, f: nat)
    requires Listed(link, head, xs) && f < |link| && f !in xs
    ensures Listed(link[f := None], head, xs)
  {
  }

  // ------------------------------------------------------------------ tables

  ghost predicate Framed(ram: seq<Page>, dirs: map<nat, nat>, tabs: map<Tab, nat>) {
    && (forall f :: 0 <= f < |ram| ==> |ram[f]| == NPTENTRIES)
    && (forall e :: e in dirs ==> dirs[e] < |ram|)
    && (forall k :: k in tabs ==> tabs[k] < |ram| && k.env in dirs && k.pdx < PDX_UTOP)
  }

  /** The user half of directory `e` holds exactly its tables. */
  ghost predicate DirWords(dir: Page, e: nat, tabs: map<Tab, nat>)
    requires |dir| == NPDENTRIES
  {
    forall d :: 0 <= d < PDX_UTOP ==>
      && (Present(dir[d]) <==> Tab(e, d) in tabs)
      && (Tab(e, d) in tabs ==> dir[d].frame == tabs[Tab(e, d)])
  }

  /** Table `k` holds exactly its pages, and directory flags `pde` cover each of them. */
  ghost predicate TableWords(table: Page, k: Tab, pages: map<Slot, Mapping>, pde: Flags)
    requires |table| == NPTENTRIES
  {
    forall t :: 0 <= t < NPTENTRIES ==>
      && (Present(table[t]) <==> Slot(k.env, k.pdx, t) in pages)
      && (Slot(k.env, k.pdx, t) in pages ==>
            && table[t] == Entry(pages[Slot(k.env, k.pdx, t)].frame, pages[Slot(k.env, k.pdx, t)].flags)
            && Covers(pde, pages[Slot(k.env, k.pdx, t)].flags))
  }

  /** Above UTOP a directory is the kernel's, except for the self-map at UVPT. */
  ghost predicate KernelHalf(dir: Page, f: nat, kern: Page)
    requires |dir| == |kern| == NPDENTRIES
  {
    forall i :: PDX_UTOP <= i < NPDENTRIES ==>
      dir[i] == if i == PDX_UVPT then Entry(f, Or(PTE_P, PTE_U)) else kern[i]
  }

  ghost predicate Decodes(ram: seq<Page>, dirs: map<nat, nat>, tabs: map<Tab, nat>, pages: map<Slot, Mapping>,
                          kern: Page)
  {
    && |kern| == NPDENTRIES
    && Framed(ram, dirs, tabs)
    && (forall e :: e in dirs ==> DirWords(ram[dirs[e]], e, tabs) && KernelHalf(ram[dirs[e]], dirs[e], kern))
    && (forall k :: k in tabs ==> TableWords(ram[tabs[k]], k, pages, ram[dirs[k.env]][k.pdx].flags))
  }

  /** The frames of directories and tables are pairwise distinct. */
  ghost predicate Apart(dirs: map<nat, nat>, tabs: map<Tab, nat>) {
    && (forall e, e' :: e in dirs && e' in dirs && dirs[e] == dirs[e'] ==> e == e')
    && (forall k, k' :: k in tabs && k' in tabs && tabs[k] == tabs[k'] ==> k == k')
    && (forall e, k :: e in dirs && k in tabs ==> dirs[e] != tabs[k])
  }

  lemma ShapeApart(r: Ram, s: State)
    requires Shape(r, s)
    ensures Apart(s.dirs, s.tabs)
  {
  }

  lemma DirApart(dirs: map<nat, nat>, tabs: map<Tab, nat>, e: nat)
    requires Apart(dirs, tabs) && e in dirs
    ensures forall e' :: e' in dirs && e' != e ==> dirs[e'] != dirs[e]
    ensures forall t :: t in tabs ==> tabs[t] != dirs[e]
  {
  }

  lemma TabApart(dirs: map<nat, nat>, tabs: map<Tab, nat>, k: Tab)
    requires Apart(dirs, tabs) && k in tabs
    ensures forall e :: e in dirs ==> dirs[e] != tabs[k]
    ensures forall t :: t in tabs && t != k ==> tabs[t] != tabs[k]
  {
  }

  /** A store into a frame that is neither directory nor table, whatever it writes, changes no address space. */
  lemma DataStore(ram: seq<Page>, dirs: map<nat, nat>, tabs: map<Tab, nat>, pages: map<Slot, Mapping>, kern: Page,
                  f: nat, page: Page)
    requires Decodes(ram, dirs, tabs, pages, kern)
    requires f < |ram| && |page| == NPTENTRIES
    requires forall e :: e in dirs ==> dirs[e] != f
    requires forall k :: k in tabs ==> tabs[k] != f
    ensures Decodes(ram[f := page], dirs, tabs, pages, kern)
  {
  }

  /** A change to another slot, or to this one together with its word, keeps a table's words. */
  lemma TableWordsKeep(table: Page, k: Tab, pages: map<Slot, Mapping>, pde: Flags, p: Slot, m: Mapping)
    requires |table| == NPTENTRIES && TableWords(table, k, pages, pde)
    ensures k != Tab(p.env, p.pdx) ==> TableWords(table, k, pages[p := m], pde)
    ensures k != Tab(p.env, p.pdx) ==> TableWords(table, k, pages - {p}, pde)
    ensures k == Tab(p.env, p.pdx) && p.ptx < NPTENTRIES && Has(m.flags, PTE_P) && Covers(pde, m.flags) ==>
              TableWords(table[p.ptx := Entry(m.frame, m.flags)], k, pages[p := m], pde)
    ensures k == Tab(p.env, p.pdx) && p.ptx < NPTENTRIES ==>
              TableWords(table[p.ptx := ZERO], k, pages - {p}, pde)
  {
  }

  lemma EmptyTableWords(k: Tab, pages: map<Slot, Mapping>, pde: Flags)
    requires forall p :: p in pages ==> Tab(p.env, p.pdx) != k
    ensures TableWords(ZEROS, k, pages, pde)
  {
  }

  lemma DirWordsKeep(dir: Page, e: nat, tabs: map<Tab, nat>, k: Tab, f: nat, x: Entry)
    requires |dir| == NPDENTRIES && DirWords(dir, e, tabs)
    ensures k.env != e ==> DirWords(dir, e, tabs[k := f]) && DirWords(dir, e, tabs - {k})
    ensures k.env == e && k.pdx < PDX_UTOP && Present(x) && x.frame == f ==>
              DirWords(dir[k.pdx := x], e, tabs[k := f])
    ensures k.env == e && k.pdx < PDX_UTOP ==> DirWords(dir[k.pdx := ZERO], e, tabs - {k})
  {
  }

  lemma DirWordAt(dir: Page, e: nat, tabs: map<Tab, nat>, d: nat)
    requires |dir| == NPDENTRIES && DirWords(dir, e, tabs) && Tab(e, d) in tabs && d < PDX_UTOP
    ensures Present(dir[d]) && dir[d].frame == tabs[Tab(e, d)]
  {
  }

  lemma DirWordsReflag(dir: Page, e: nat, tabs: map<Tab, nat>, d: nat, x: Entry)
    requires |dir| == NPDENTRIES && DirWords(dir, e, tabs) && Tab(e, d) in tabs && d < PDX_UTOP
    requires Present(x) && x.frame == tabs[Tab(e, d)]
    ensures DirWords(dir[d := x], e, tabs)
  {
  }

  lemma KernelHalfKeep(dir: Page, f: nat, kern: Page, d: nat, x: Entry)
    requires |dir| == |kern| == NPDENTRIES && KernelHalf(dir, f, kern) && d < PDX_UTOP
    ensures KernelHalf(dir[d := x], f, kern)
  {
  }

  lemma ClearEntryStore(ram: seq<Page>, dirs: map<nat, nat>, tabs: map<Tab, nat>, pages: map<Slot, Mapping>, kern: Page,
                        k: Slot)
    requires Decodes(ram, dirs, tabs, pages, kern) && Apart(dirs, tabs)
    requires Tab(k.env, k.pdx) in tabs && k.ptx < NPTENTRIES
    ensures Decodes(Store(ram, tabs[Tab(k.env, k.pdx)], k.ptx, ZERO), dirs, tabs, pages - {k}, kern)
  {
    hide DirWords, TableWords, KernelHalf, Apart;
    TabApart(dirs, tabs, Tab(k.env, k.pdx));
    var ram1: seq<Page> := Store(ram, tabs[Tab(k.env, k.pdx)], k.ptx, ZERO);
    forall t: Tab | t in tabs ensures TableWords(ram1[tabs[t]], t, pages - {k}, ram1[dirs[t.env]][t.pdx].flags) {
      TableWordsKeep(ram[tabs[t]], t, pages, ram[dirs[t.env]][t.pdx].flags, k, Mapping(0, 0));
    }
  }

  lemma SetEntryStore(ram: seq<Page>, dirs: map<nat, nat>, tabs: map<Tab, nat>, pages: map<Slot, Mapping>, kern: Page,
                      k: Slot, m: Mapping)
    requires Decodes(ram, dirs, tabs, pages, kern) && Apart(dirs, tabs)
    requires Tab(k.env, k.pdx) in tabs && k.ptx < NPTENTRIES
    requires Has(m.flags, PTE_P) && Covers(ram[dirs[k.env]][k.pdx].flags, m.flags)
    ensures Decodes(Store(ram, tabs[Tab(k.env, k.pdx)], k.ptx, Entry(m.frame, m.flags)), dirs, tabs,
                    pages[k := m], kern)
  {
    hide DirWords, TableWords, KernelHalf, Apart;
    TabApart(dirs, tabs, Tab(k.env, k.pdx));
    var ram1: seq<Page> := Store(ram, tabs[Tab(k.env, k.pdx)], k.ptx, Entry(m.frame, m.flags));
    forall t: Tab | t in tabs ensures TableWords(ram1[tabs[t]], t, pages[k := m], ram1[dirs[t.env]][t.pdx].flags) {
      TableWordsKeep(ram[tabs[t]], t, pages, ram[dirs[t.env]][t.pdx].flags, k, m);
    }
  }

  /** The directory word of `k` is replaced by one with more flags. */
  lemma RaisedTables(ram: seq<Page>, dirs: map<nat, nat>, tabs: map<Tab, nat>, pages: map<Slot, Mapping>, kern: Page,
                     k: Tab, perm: Flags, x: Entry)
    requires Decodes(ram, dirs, tabs, pages, kern) && Apart(dirs, tabs)
    requires k in tabs
    requires x.flags == Or(ram[dirs[k.env]][k.pdx].flags, perm)
    ensures var ram1: seq<Page> := Store(ram, dirs[k.env], k.pdx, x);
      forall t: Tab :: t in tabs ==> TableWords(ram1[tabs[t]], t, pages, ram1[dirs[t.env]][t.pdx].flags)
  {
  }

  /** pgdir[PDX(va)] |= perm; `x` is the new word. */
  lemma RaiseFlagsStore(ram: seq<Page>, dirs: map<nat, nat>, tabs: map<Tab, nat>, pages: map<Slot, Mapping>, kern: Page,
                        k: Tab, perm: Flags, x: Entry)
    requires Decodes(ram, dirs, tabs, pages, kern) && Apart(dirs, tabs)
    requires k in tabs
    requires x.frame == ram[dirs[k.env]][k.pdx].frame && x.flags == Or(ram[dirs[k.env]][k.pdx].flags, perm)
    ensures Decodes(Store(ram, dirs[k.env], k.pdx, x), dirs, tabs, pages, kern)
  {
    hide DirWords, TableWords, KernelHalf, Covers, Has, Or, Apart;
    DirApart(dirs, tabs, k.env);
    DirWordAt(ram[dirs[k.env]], k.env, tabs, k.pdx);
    CoversBits(ram[dirs[k.env]][k.pdx].flags, 0, perm);
    DirWordsReflag(ram[dirs[k.env]], k.env, tabs, k.pdx, x);
    KernelHalfKeep(ram[dirs[k.env]], dirs[k.env], kern, k.pdx, x);
    RaisedTables(ram, dirs, tabs, pages, kern, k, perm, x);
  }

  lemma NewTableStore(ram: seq<Page>, dirs: map<nat, nat>, tabs: map<Tab, nat>, pages: map<Slot, Mapping>, kern: Page,
                      k: Tab, f: nat)
    requires Decodes(ram, dirs, tabs, pages, kern) && Apart(dirs, tabs)
    requires k !in tabs && k.env in dirs && k.pdx < PDX_UTOP
    requires f < |ram| && ram[f] == ZEROS
    requires forall e :: e in dirs ==> dirs[e] != f
    requires forall t :: t in tabs ==> tabs[t] != f
    requires forall p :: p in pages ==> Tab(p.env, p.pdx) in tabs
    ensures Decodes(Store(ram, dirs[k.env], k.pdx, Entry(f, PTE_P)), dirs, tabs[k := f], pages, kern)
  {
    hide DirWords, TableWords, KernelHalf, Apart;
    DirApart(dirs, tabs, k.env);
    var x := Entry(f, PTE_P);
    var ram1: seq<Page> := Store(ram, dirs[k.env], k.pdx, x);
    EmptyTableWords(k, pages, PTE_P);
    forall t: Tab | t in tabs ensures TableWords(ram1[tabs[t]], t, pages, ram1[dirs[t.env]][t.pdx].flags) {
      assert t != k;
    }
    forall e | e in dirs
      ensures DirWords(ram1[dirs[e]], e, tabs[k := f]) && KernelHalf(ram1[dirs[e]], dirs[e], kern)
    {
      DirWordsKeep(ram[dirs[e]], e, tabs, k, f, x);
      KernelHalfKeep(ram[dirs[e]], dirs[e], kern, k.pdx, x);
    }
  }

  lemma DropTableStore(ram: seq<Page>, dirs: map<nat, nat>, tabs: map<Tab, nat>, pages: map<Slot, Mapping>, kern: Page,
                       k: Tab)
    requires Decodes(ram, dirs, tabs, pages, kern) && Apart(dirs, tabs)
    requires k in tabs
    ensures Decodes(Store(ram, dirs[k.env], k.pdx, ZERO), dirs, tabs - {k}, pages, kern)
  {
    hide DirWords, TableWords, KernelHalf, Apart;
    DirApart(dirs, tabs, k.env);
    var ram1: seq<Page> := Store(ram, dirs[k.env], k.pdx, ZERO);
    forall e | e in dirs
      ensures DirWords(ram1[dirs[e]], e, tabs - {k}) && KernelHalf(ram1[dirs[e]], dirs[e], kern)
    {
      DirWordsKeep(ram[dirs[e]], e, tabs, k, 0, ZERO);
      KernelHalfKeep(ram[dirs[e]], dirs[e], kern, k.pdx, ZERO);
    }
  }

  /** What env_setup_vm writes into a new directory in frame `f`. */
  function NewDirectory(kern: Page, f: nat): Page
    requires |kern| == NPDENTRIES
  {
    seq(NPDENTRIES, i requires 0 <= i < NPDENTRIES =>
      if i < PDX_UTOP then ZERO else if i == PDX_UVPT then Entry(f, Or(PTE_P, PTE_U)) else kern[i])
  }

  lemma NewDirStore(ram: seq<Page>, dirs: map<nat, nat>, tabs: map<Tab, nat>, pages: map<Slot, Mapping>, kern: Page,
                    e: nat, f: nat)
    requires Decodes(ram, dirs, tabs, pages, kern)
    requires e !in dirs && f < |ram|
    requires forall e :: e in dirs ==> dirs[e] != f
    requires forall t :: t in tabs ==> tabs[t] != f
    requires forall p :: p in pages ==> Tab(p.env, p.pdx) in tabs
    ensures Decodes(ram[f := NewDirectory(kern, f)], dirs[e := f], tabs, pages, kern)
  {
  }

  lemma DropDirStore(ram: seq<Page>, dirs: map<nat, nat>, tabs: map<Tab, nat>, pages: map<Slot, Mapping>, kern: Page,
                     e: nat)
    requires Decodes(ram, dirs, tabs, pages, kern)
    requires forall k :: k in tabs ==> k.env != e
    ensures Decodes(ram, dirs - {e}, tabs, pages, kern)
  {
  }
}
