/**
 User-level copy-on-write fork (lib/fork.c) as a state machine over its system
 calls.  Every environment is a thread that may be inside fork, inside the page
 fault handler, or both; steps of all threads interleave freely.
 */
module CowFork {
  import opened Wrappers
  import Common

  /** Page numbers: PGNUM(PFTEMP), the bound of fork's loop, and the exception stack. */
  const PFTEMP: nat := 0x7FF
  const LIMIT: nat := 0xeebfe
  const XSTACK: nat := 0xeebff

  /** The bytes of a page that were written since it was zeroed. */
  type Page = map<nat, int>

  const ZEROS: Page := map[]

  /** Page `pn` of environment `env`. */
  datatype Va = Va(env: nat, pn: nat)

  /** PTE_W, PTE_COW and PTE_SHARE; PTE_P and PTE_U are always set. */
  datatype Perm = Perm(w: bool, cow: bool, share: bool)

  datatype Pte = Pte(frame: nat, perm: Perm)

  /** Where duppage is on the current page. `pending`: our own entry is still writable. */
  datatype Phase = Look | Chosen(perm: Perm, remap: bool) | Mapped(perm: Perm, pending: bool)

  datatype Fork = NoFork | At(child: nat, pn: nat, phase: Phase) | Stacked(child: nat)

  /** Stages of pgfault: entered, PFTEMP allocated, page copied, page mapped. */
  datatype Stage = Entered | Allocated | Copied | Remapped

  datatype Fault = NoFault | Handling(pn: nat, stage: Stage)

  /** `maker` is the parent while the environment is not runnable yet. */
  datatype Thread = Thread(maker: Option<nat>, fork: Fork, fault: Fault)

  datatype State = State(pt: map<Va, Pte>, mem: map<nat, Page>, th: map<nat, Thread>)

  // ------------------------------------------------------------------ steps

  datatype Action =
    | Write(va: Va, i: nat, b: int)
    | TakeFault(va: Va)
    | HandlerAlloc(env: nat, f: nat)
    | HandlerCopy(env: nat)
    | HandlerMap(env: nat)
    | HandlerUnmap(env: nat)
    | PageAlloc(va: Va, f: nat, perm: Perm)
    | PageUnmap(va: Va)
    | Exofork(env: nat, child: nat)
    | LookAt(env: nat)
    | MapChild(env: nat)
    | MapSelf(env: nat)
    | ChildStack(env: nat, f: nat)
    | SetRunnable(env: nat)

  predicate Running(th: map<nat, Thread>, e: nat) {
    e in th && th[e].maker == None && th[e].fault == NoFault
  }

  /** User code outside fork and outside the handler. */
  predicate AtLeisure(th: map<nat, Thread>, e: nat) {
    Running(th, e) && th[e].fork == NoFork
  }

  predicate Unused(pt: map<Va, Pte>, f: nat) {
    forall k :: k in pt ==> pt[k].frame != f
  }

  predicate InPhase(th: map<nat, Thread>, e: nat) {
    Running(th, e) && th[e].fork.At? && th[e].fork.pn < LIMIT
  }

  /** The permission duppage gives the child, and whether it also remaps our own page. */
  function DupPerm(p: Perm): Perm {
    if p.share then p else if p.w || p.cow then Perm(false, true, false) else Perm(false, false, false)
  }

  predicate Remaps(p: Perm) {
    p.w || p.cow || p.share
  }

  predicate InStage(th: map<nat, Thread>, e: nat, stage: Stage) {
    e in th && th[e].fault.Handling? && th[e].fault.stage == stage
  }

  /** Our own page, the one duppage is working on. */
  function Own(th: map<nat, Thread>, e: nat): Va {
    Va(e, if e in th && th[e].fork.At? then th[e].fork.pn else 0)
  }

  /** The same page of the child. */
  function Its(th: map<nat, Thread>, e: nat): Va {
    Va(if e in th && th[e].fork != NoFork then th[e].fork.child else 0, Own(th, e).pn)
  }

  /** sys_page_map refuses to grant write access to a read-only page. */
  predicate MayDup(pt: map<Va, Pte>, th: map<nat, Thread>, e: nat, perm: Perm) {
    Own(th, e) in pt && (perm.w ==> pt[Own(th, e)].perm.w)
  }

  predicate Enabled(s: State, a: Action) {
    match a
    case Write(k, i, b) => Running(s.th, k.env) && k.pn != PFTEMP && k in s.pt && s.pt[k].perm.w && i < Common.PGSIZE
    case TakeFault(k) => Running(s.th, k.env) && k.pn != PFTEMP && k in s.pt && !s.pt[k].perm.w && s.pt[k].perm.cow
    case HandlerAlloc(e, f) => InStage(s.th, e, Entered) && Unused(s.pt, f)
    case HandlerCopy(e) => InStage(s.th, e, Allocated)
    case HandlerMap(e) => InStage(s.th, e, Copied)
    case HandlerUnmap(e) => InStage(s.th, e, Remapped)
    case PageAlloc(k, f, perm) => AtLeisure(s.th, k.env) && k.pn != PFTEMP && Unused(s.pt, f)
    case PageUnmap(k) => AtLeisure(s.th, k.env) && k.pn != PFTEMP
    case Exofork(e, c) => AtLeisure(s.th, e) && c !in s.th
    case LookAt(e) => InPhase(s.th, e) && s.th[e].fork.phase == Look
    case MapChild(e) => InPhase(s.th, e) && s.th[e].fork.phase.Chosen? && MayDup(s.pt, s.th, e, s.th[e].fork.phase.perm)
    case MapSelf(e) => InPhase(s.th, e) && s.th[e].fork.phase.Mapped? && MayDup(s.pt, s.th, e, s.th[e].fork.phase.perm)
    case ChildStack(e, f) =>
      Running(s.th, e) && s.th[e].fork.At? && s.th[e].fork.pn == LIMIT && s.th[e].fork.phase == Look && Unused(s.pt, f)
    case SetRunnable(e) => Running(s.th, e) && s.th[e].fork.Stacked?
  }

  /** Thread `e` moves to `fork`. */
  function GoFork(th: map<nat, Thread>, e: nat, fork: Fork): map<nat, Thread> {
    if e in th then th[e := Thread(th[e].maker, fork, th[e].fault)] else th
  }

  /** The handler of thread `e` reaches `stage`. */
  function GoStage(th: map<nat, Thread>, e: nat, stage: Stage): map<nat, Thread> {
    if e in th && th[e].fault.Handling?
    then th[e := Thread(th[e].maker, th[e].fork, Handling(th[e].fault.pn, stage))]
    else th
  }

  function GoFault(th: map<nat, Thread>, e: nat, fault: Fault): map<nat, Thread> {
    if e in th then th[e := Thread(th[e].maker, th[e].fork, fault)] else th
  }

  function Faulting(th: map<nat, Thread>, e: nat): Va {
    Va(e, if e in th && th[e].fault.Handling? then th[e].fault.pn else 0)
  }

  function FrameAt(pt: map<Va, Pte>, k: Va): nat {
    if k in pt then pt[k].frame else 0
  }

  function PageIn(mem: map<nat, Page>, f: nat): Page {
    if f in mem then mem[f] else ZEROS
  }

  function Poke(p: Page, i: nat, b: int): Page {
    p[i := b]
  }

  const RW: Perm := Perm(true, false, false)

  /** uvpt[pn] is read and the permission chosen, or the page is skipped. */
  function AfterLook(pt: map<Va, Pte>, k: Va, child: nat): Fork {
    if k in pt then At(child, k.pn, Chosen(DupPerm(pt[k].perm), Remaps(pt[k].perm))) else At(child, k.pn + 1, Look)
  }

  function AfterChild(own: Perm, k: Va, child: nat, perm: Perm, remap: bool): Fork {
    if remap then At(child, k.pn, Mapped(perm, own.w && !own.share)) else At(child, k.pn + 1, Look)
  }

  function Release(th: map<nat, Thread>, e: nat, c: nat): map<nat, Thread> {
    if c in th then GoFork(th, e, NoFork)[c := Thread(None, th[c].fork, th[c].fault)] else GoFork(th, e, NoFork)
  }

  function Next(s: State, a: Action): State
    requires Enabled(s, a)
  {
    match a
    case Write(k, i, b) => State(s.pt, s.mem[s.pt[k].frame := Poke(PageIn(s.mem, s.pt[k].frame), i, b)], s.th)
    case TakeFault(k) => State(s.pt, s.mem, GoFault(s.th, k.env, Handling(k.pn, Entered)))
    case HandlerAlloc(e, f) =>
      State(s.pt[Va(e, PFTEMP) := Pte(f, RW)], s.mem[f := ZEROS], GoStage(s.th, e, Allocated))
    case HandlerCopy(e) =>
      State(s.pt, s.mem[FrameAt(s.pt, Va(e, PFTEMP)) := PageIn(s.mem, FrameAt(s.pt, Faulting(s.th, e)))],
            GoStage(s.th, e, Copied))
    case HandlerMap(e) =>
      State(s.pt[Faulting(s.th, e) := Pte(FrameAt(s.pt, Va(e, PFTEMP)), RW)], s.mem, GoStage(s.th, e, Remapped))
    case HandlerUnmap(e) => State(s.pt - {Va(e, PFTEMP)}, s.mem, GoFault(s.th, e, NoFault))
    case PageAlloc(k, f, perm) => State(s.pt[k := Pte(f, perm)], s.mem[f := ZEROS], s.th)
    case PageUnmap(k) => State(s.pt - {k}, s.mem, s.th)
    case Exofork(e, c) => State(s.pt, s.mem, GoFork(s.th, e, At(c, 0, Look))[c := Thread(Some(e), NoFork, NoFault)])
    case LookAt(e) => State(s.pt, s.mem, GoFork(s.th, e, AfterLook(s.pt, Own(s.th, e), s.th[e].fork.child)))
    case MapChild(e) =>
      State(s.pt[Its(s.th, e) := Pte(s.pt[Own(s.th, e)].frame, s.th[e].fork.phase.perm)], s.mem,
            GoFork(s.th, e, AfterChild(s.pt[Own(s.th, e)].perm, Own(s.th, e), s.th[e].fork.child,
                                       s.th[e].fork.phase.perm, s.th[e].fork.phase.remap)))
    case MapSelf(e) =>
      State(s.pt[Own(s.th, e) := Pte(s.pt[Own(s.th, e)].frame, s.th[e].fork.phase.perm)], s.mem,
            GoFork(s.th, e, At(s.th[e].fork.child, s.th[e].fork.pn + 1, Look)))
    case ChildStack(e, f) =>
      State(s.pt[Va(s.th[e].fork.child, XSTACK) := Pte(f, RW)], s.mem[f := ZEROS],
            GoFork(s.th, e, Stacked(s.th[e].fork.child)))
    case SetRunnable(e) => State(s.pt, s.mem, Release(s.th, e, s.th[e].fork.child))
  }

  // -------------------------------------------------------------- invariant

  /** How a frame is mapped: writable by one page only, common to PTE_SHARE pages, or writable by nobody. */
  datatype Kind = Owned(va: Va) | Common | Frozen

  function KindOf(k: Va, p: Perm): Kind {
    if !p.w then Frozen else if p.share then Common else Owned(k)
  }

  /** Thread `p` is between its two sys_page_map calls on page k.pn, and may still write the frame. */
  predicate Sending(th: map<nat, Thread>, p: nat, k: Va) {
    && p in th && th[p].fork.At? && th[p].fork.child == k.env && th[p].fork.pn == k.pn
    && th[p].fork.phase.Mapped? && th[p].fork.phase.pending
  }

  /** The child's page while the parent may still write the frame through its own entry. */
  predicate InTransit(th: map<nat, Thread>, k: Va) {
    k.env in th && th[k.env].maker.Some? && Sending(th, th[k.env].maker.value, k)
  }

  /** Pages whose entry tells the whole story. */
  predicate Settled(th: map<nat, Thread>, k: Va) {
    k.pn != PFTEMP && !InTransit(th, k)
  }

  ghost predicate Kinds(pt: map<Va, Pte>, th: map<nat, Thread>, kind: map<nat, Kind>) {
    forall k :: k in pt ==>
      && k.env in th
      && pt[k].frame in kind
      && (Settled(th, k) ==> kind[pt[k].frame] == KindOf(k, pt[k].perm))
  }

  predicate ForkOk(th: map<nat, Thread>, e: nat)
    requires e in th
  {
    th[e].fork != NoFork ==>
      th[e].maker == None && th[e].fork.child in th && th[th[e].fork.child].maker == Some(e)
  }

  predicate MakerOk(th: map<nat, Thread>, e: nat)
    requires e in th
  {
    th[e].maker.Some? ==>
      && th[e].fork == NoFork && th[e].fault == NoFault
      && th[e].maker.value in th && th[th[e].maker.value].fork != NoFork && th[th[e].maker.value].fork.child == e
  }

  ghost predicate Threads(th: map<nat, Thread>) {
    && (forall e :: e in th ==> ForkOk(th, e) && MakerOk(th, e))
    && (forall e :: e in th && th[e].fault.Handling? ==> th[e].fault.pn != PFTEMP)
  }

  /** What duppage knows about its own page between its steps. */
  predicate Agrees(own: Perm, perm: Perm, remap: bool) {
    && (perm.w ==> perm.share)
    && (perm.w <==> own.w && own.share)
    && (own.share ==> perm == own)
    && (perm.w || perm.cow <==> own.w || own.cow)
    && (!remap ==> !own.w && !own.cow)
  }

  /** Our own entry is writable and the child's entry maps the same frame read-only. */
  predicate Pending(pt: map<Va, Pte>, k: Va, c: Va) {
    k in pt && pt[k].perm.w && !pt[k].perm.share && c in pt && pt[c].frame == pt[k].frame && !pt[c].perm.w
  }

  predicate DupOk(pt: map<Va, Pte>, e: nat, fork: Fork) {
    && (fork.At? && fork.phase.Chosen? ==>
          && fork.pn != PFTEMP && fork.pn < LIMIT && Va(e, fork.pn) in pt
          && Agrees(pt[Va(e, fork.pn)].perm, fork.phase.perm, fork.phase.remap))
    && (fork.At? && fork.phase.Mapped? ==>
          && fork.pn != PFTEMP && fork.pn < LIMIT && Va(e, fork.pn) in pt
          && Agrees(pt[Va(e, fork.pn)].perm, fork.phase.perm, true)
          && (fork.phase.pending ==> Pending(pt, Va(e, fork.pn), Va(fork.child, fork.pn))))
  }

  ghost predicate Forks(pt: map<Va, Pte>, th: map<nat, Thread>) {
    forall e :: e in th ==> DupOk(pt, e, th[e].fork)
  }

  predicate TempOk(pt: map<Va, Pte>, kind: map<nat, Kind>, t: Va) {
    t in pt && pt[t].frame in kind && kind[pt[t].frame] == Owned(t)
  }

  predicate CowAt(pt: map<Va, Pte>, k: Va) {
    k in pt && !pt[k].perm.w && pt[k].perm.cow
  }

  /** What pgfault knows about PFTEMP `t` and the faulting page `k` between its steps. */
  ghost predicate StageOk(pt: map<Va, Pte>, mem: map<nat, Page>, kind: map<nat, Kind>, t: Va, k: Va, stage: Stage) {
    match stage
    case Entered => t !in pt && CowAt(pt, k)
    case Allocated => TempOk(pt, kind, t) && CowAt(pt, k)
    case Copied => TempOk(pt, kind, t) && CowAt(pt, k) && PageIn(mem, pt[t].frame) == PageIn(mem, pt[k].frame)
    case Remapped => t in pt && k in pt && pt[t].frame == pt[k].frame && pt[k].perm == RW
  }

  ghost predicate HandlerOk(pt: map<Va, Pte>, mem: map<nat, Page>, kind: map<nat, Kind>, e: nat, fault: Fault) {
    if fault.Handling? then StageOk(pt, mem, kind, Va(e, PFTEMP), Va(e, fault.pn), fault.stage)
    else Va(e, PFTEMP) !in pt
  }

  ghost predicate Handlers(pt: map<Va, Pte>, mem: map<nat, Page>, th: map<nat, Thread>, kind: map<nat, Kind>) {
    forall e :: e in th ==> HandlerOk(pt, mem, kind, e, th[e].fault)
  }

  ghost predicate InvBy(s: State, kind: map<nat, Kind>) {
    && Kinds(s.pt, s.th, kind)
    && Threads(s.th)
    && Forks(s.pt, s.th)
    && Handlers(s.pt, s.mem, s.th, kind)
  }

  ghost predicate Inv(s: State) {
    exists kind :: InvBy(s, kind)
  }

  lemma HandlerAt(s: State, kind: map<nat, Kind>, e: nat)
    requires Handlers(s.pt, s.mem, s.th, kind) && e in s.th
    ensures HandlerOk(s.pt, s.mem, kind, e, s.th[e].fault)
  {
  }

  lemma DupAt(s: State, e: nat)
    requires Forks(s.pt, s.th) && e in s.th
    ensures DupOk(s.pt, e, s.th[e].fork)
  {
  }

  lemma NoPages(s: State, kind: map<nat, Kind>, k: Va)
    requires Kinds(s.pt, s.th, kind) && k.env !in s.th
    ensures k !in s.pt
  {
  }

  // ------------------------------------------------------ the eager machine

  /** A memory cell: private to one page, or common to all pages sharing it. */
  datatype Cell = Private(va: Va) | Group(id: nat)

  /** What fork would give if it copied every unshared page at once. */
  datatype Image = Image(cell: map<Va, Cell>, val: map<Cell, Page>)

  datatype Event =
    | Stutter
    | NewPage(va: Va, cell: Cell)
    | Drop(va: Va)
    | Store(va: Va, i: nat, b: int)
    | Copy(src: Va, dst: Va)
    | Share(src: Va, dst: Va)

  function CellOf(k: Va, x: Pte): Cell {
    if x.perm.w && x.perm.share then Group(x.frame) else Private(k)
  }

  function Val(m: Image, k: Va): Page {
    if k in m.cell && m.cell[k] in m.val then m.val[m.cell[k]] else ZEROS
  }

  function Eager(m: Image, ev: Event): Image {
    match ev
    case Stutter => m
    case NewPage(k, c) => Image(m.cell[k := c], m.val[c := ZEROS])
    case Drop(k) => Image(m.cell - {k}, m.val)
    case Store(k, i, b) => if k in m.cell then Image(m.cell, m.val[m.cell[k] := Val(m, k)[i := b]]) else m
    case Copy(src, dst) => Image(m.cell[dst := Private(dst)], m.val[Private(dst) := Val(m, src)])
    case Share(src, dst) => if src in m.cell then Image(m.cell[dst := m.cell[src]], m.val) else m
  }

  /** The eager event behind a step: the copy happens when the parent's own mapping stops being writable. */
  function EventOf(s: State, a: Action): Event
    requires Enabled(s, a)
  {
    match a
    case Write(k, i, b) => Store(k, i, b)
    case PageAlloc(k, f, perm) => NewPage(k, CellOf(k, Pte(f, perm)))
    case PageUnmap(k) => Drop(k)
    case MapChild(e) =>
      if s.th[e].fork.phase.perm.w then Share(Own(s.th, e), Its(s.th, e))
      else if s.pt[Own(s.th, e)].perm.w && !s.pt[Own(s.th, e)].perm.share then Drop(Its(s.th, e))
      else Copy(Own(s.th, e), Its(s.th, e))
    case MapSelf(e) => if s.th[e].fork.phase.pending then Copy(Own(s.th, e), Its(s.th, e)) else Stutter
    case ChildStack(e, f) => NewPage(Va(s.th[e].fork.child, XSTACK), Private(Va(s.th[e].fork.child, XSTACK)))
    case _ => Stutter
  }

  /** The image holds exactly the settled pages, each with the contents of its frame. */
  ghost predicate Shows(pt: map<Va, Pte>, mem: map<nat, Page>, th: map<nat, Thread>, m: Image) {
    && (forall k :: k in m.cell <==> k in pt && Settled(th, k))
    && (forall k :: k in m.cell && k in pt ==>
          && m.cell[k] == CellOf(k, pt[k])
          && m.cell[k] in m.val && m.val[m.cell[k]] == PageIn(mem, pt[k].frame))
  }

  // --------------------------------------------------------- threads advance

  /** No page goes into or out of transit. */
  ghost predicate SameTransit(th: map<nat, Thread>, th1: map<nat, Thread>) {
    && th.Keys <= th1.Keys
    && (forall k :: InTransit(th1, k) == InTransit(th, k))
  }

  lemma FaultMoves(th: map<nat, Thread>, e: nat, fault: Fault)
    requires Threads(th) && e in th && th[e].maker == None
    requires fault.Handling? ==> fault.pn != PFTEMP
    ensures Threads(GoFault(th, e, fault)) && SameTransit(th, GoFault(th, e, fault))
  {
  }

  lemma StageMoves(th: map<nat, Thread>, e: nat, stage: Stage)
    requires Threads(th) && e in th && th[e].fault.Handling?
    ensures Threads(GoStage(th, e, stage)) && SameTransit(th, GoStage(th, e, stage))
  {
    FaultMoves(th, e, Handling(th[e].fault.pn, stage));
  }

  /** fork moves on without a pending page before or after. */
  lemma ForkMoves(th: map<nat, Thread>, e: nat, fork: Fork)
    requires Threads(th) && e in th && th[e].fork != NoFork && fork != NoFork && fork.child == th[e].fork.child
    requires !(th[e].fork.At? && th[e].fork.phase.Mapped? && th[e].fork.phase.pending)
    requires !(fork.At? && fork.phase.Mapped? && fork.phase.pending)
    ensures Threads(GoFork(th, e, fork)) && SameTransit(th, GoFork(th, e, fork))
  {
  }

  lemma ForkThreads(th: map<nat, Thread>, e: nat, fork: Fork)
    requires Threads(th) && e in th && th[e].fork != NoFork && fork != NoFork && fork.child == th[e].fork.child
    ensures Threads(GoFork(th, e, fork))
  {
  }

  /** Only a running environment handles a fault, and never on PFTEMP. */
  lemma HandlerRuns(th: map<nat, Thread>)
    requires Threads(th)
    ensures forall e :: e in th && th[e].fault.Handling? ==> th[e].maker == None && th[e].fault.pn != PFTEMP
    ensures forall e :: e in th && th[e].fault.Handling? ==> Settled(th, Va(e, th[e].fault.pn))
    ensures forall e :: e in th && th[e].fork != NoFork ==> th[e].maker == None
  {
  }

  // ------------------------------------------------------------------ Write

  lemma WriteKeeps(s: State, kind: map<nat, Kind>, k: Va, page: Page)
    requires InvBy(s, kind) && Running(s.th, k.env) && k.pn != PFTEMP && k in s.pt && s.pt[k].perm.w
    ensures Handlers(s.pt, s.mem[s.pt[k].frame := page], s.th, kind)
  {
    hide Threads, Forks;
    HandlerRuns(s.th);
    var mem := s.mem[s.pt[k].frame := page];
    assert !InTransit(s.th, k);
    forall e | e in s.th ensures HandlerOk(s.pt, mem, kind, e, s.th[e].fault) {
      assert HandlerOk(s.pt, s.mem, kind, e, s.th[e].fault);
    }
  }

  lemma WriteShows(pt: map<Va, Pte>, mem: map<nat, Page>, th: map<nat, Thread>, kind: map<nat, Kind>, m: Image,
                   k: Va, i: nat, b: int)
    requires Kinds(pt, th, kind) && Running(th, k.env) && k.pn != PFTEMP && k in pt && pt[k].perm.w
    requires Shows(pt, mem, th, m)
    ensures Shows(pt, mem[pt[k].frame := Poke(PageIn(mem, pt[k].frame), i, b)], th, Eager(m, Store(k, i, b)))
  {
  }

  // ------------------------------------------------------------ new mappings

  /** A fresh frame `f` is mapped at k. */
  lemma NewKinds(pt: map<Va, Pte>, th: map<nat, Thread>, kind: map<nat, Kind>, k: Va, x: Pte, kd: Kind)
    requires Kinds(pt, th, kind) && Unused(pt, x.frame) && k.env in th
    requires Settled(th, k) ==> kd == KindOf(k, x.perm)
    ensures Kinds(pt[k := x], th, kind[x.frame := kd])
  {
  }

  /** Nobody's duppage is looking at k. */
  predicate NotDuped(th: map<nat, Thread>, k: Va) {
    k.env in th && (k.pn == PFTEMP || k.pn >= LIMIT || (th[k.env].maker == None && th[k.env].fork == NoFork))
  }

  lemma NewForks(pt: map<Va, Pte>, th: map<nat, Thread>, k: Va, x: Pte)
    requires Forks(pt, th) && Threads(th) && NotDuped(th, k)
    ensures Forks(pt[k := x], th)
    ensures Forks(pt - {k}, th)
  {
    forall e | e in th ensures DupOk(pt[k := x], e, th[e].fork) && DupOk(pt - {k}, e, th[e].fork) {
      assert DupOk(pt, e, th[e].fork);
    }
  }

  lemma NewHandlers(pt: map<Va, Pte>, mem: map<nat, Page>, th: map<nat, Thread>, kind: map<nat, Kind>,
                    k: Va, x: Pte, kd: Kind)
    requires Handlers(pt, mem, th, kind) && Unused(pt, x.frame) && k.env in th
    requires k.pn != PFTEMP && th[k.env].fault == NoFault
    ensures Handlers(pt[k := x], mem[x.frame := ZEROS], th, kind[x.frame := kd])
  {
  }

  lemma DropHandlers(pt: map<Va, Pte>, mem: map<nat, Page>, th: map<nat, Thread>, kind: map<nat, Kind>, k: Va)
    requires Handlers(pt, mem, th, kind) && k.env in th && k.pn != PFTEMP && th[k.env].fault == NoFault
    ensures Handlers(pt - {k}, mem, th, kind)
  {
  }

  lemma NewShows(pt: map<Va, Pte>, mem: map<nat, Page>, th: map<nat, Thread>, m: Image, k: Va, x: Pte)
    requires Shows(pt, mem, th, m) && Unused(pt, x.frame)
    requires Settled(th, k)
    ensures Shows(pt[k := x], mem[x.frame := ZEROS], th, Eager(m, NewPage(k, CellOf(k, x))))
  {
  }

  lemma DropShows(pt: map<Va, Pte>, mem: map<nat, Page>, th: map<nat, Thread>, m: Image, k: Va)
    requires Shows(pt, mem, th, m)
    ensures Shows(pt - {k}, mem, th, Eager(m, Drop(k)))
  {
  }

  /** Threads move without transit, and memory changes only in frames no settled page maps. */
  lemma IdleShows(pt: map<Va, Pte>, mem: map<nat, Page>, th: map<nat, Thread>, m: Image,
                  mem1: map<nat, Page>, th1: map<nat, Thread>)
    requires Shows(pt, mem, th, m) && SameTransit(th, th1)
    requires forall k :: k in pt && Settled(th, k) ==> PageIn(mem1, pt[k].frame) == PageIn(mem, pt[k].frame)
    ensures Shows(pt, mem1, th1, m)
  {
  }

  lemma IdleKinds(pt: map<Va, Pte>, th: map<nat, Thread>, kind: map<nat, Kind>, th1: map<nat, Thread>)
    requires Kinds(pt, th, kind) && SameTransit(th, th1)
    ensures Kinds(pt, th1, kind)
  {
  }

  /** Handlers of other threads do not notice a step of thread e. */
  lemma OtherHandlers(pt: map<Va, Pte>, mem: map<nat, Page>, th: map<nat, Thread>, kind: map<nat, Kind>,
                      th1: map<nat, Thread>, e: nat)
    requires Handlers(pt, mem, th, kind) && th1.Keys == th.Keys && e in th1
    requires forall x :: x in th && x != e ==> th1[x].fault == th[x].fault
    requires HandlerOk(pt, mem, kind, e, th1[e].fault)
    ensures Handlers(pt, mem, th1, kind)
  {
  }

  lemma SameForks(pt: map<Va, Pte>, th: map<nat, Thread>, th1: map<nat, Thread>)
    requires Forks(pt, th) && th1.Keys == th.Keys && forall e :: e in th ==> th1[e].fork == th[e].fork
    ensures Forks(pt, th1)
  {
  }

  // ---------------------------------------------------------- the handler

  lemma TakeFaultKeeps(s: State, kind: map<nat, Kind>, k: Va, m: Image)
    requires InvBy(s, kind) && Shows(s.pt, s.mem, s.th, m) && Enabled(s, TakeFault(k))
    ensures InvBy(Next(s, TakeFault(k)), kind)
    ensures var s1 := Next(s, TakeFault(k)); Shows(s1.pt, s1.mem, s1.th, m)
  {
    hide Kinds, Threads, Forks, Shows, SameTransit;
    var th1 := GoFault(s.th, k.env, Handling(k.pn, Entered));
    FaultMoves(s.th, k.env, Handling(k.pn, Entered));
    IdleKinds(s.pt, s.th, kind, th1);
    SameForks(s.pt, s.th, th1);
    OtherHandlers(s.pt, s.mem, s.th, kind, th1, k.env);
    IdleShows(s.pt, s.mem, s.th, m, s.mem, th1);
  }

  lemma AllocHandlers(s: State, kind: map<nat, Kind>, e: nat, f: nat)
    requires Threads(s.th) && Handlers(s.pt, s.mem, s.th, kind) && InStage(s.th, e, Entered) && Unused(s.pt, f)
    ensures Handlers(s.pt[Va(e, PFTEMP) := Pte(f, RW)], s.mem[f := ZEROS], GoStage(s.th, e, Allocated),
                     kind[f := Owned(Va(e, PFTEMP))])
  {
  }

  /** Only unsettled pages come or go, and memory changes only in frames no settled page maps. */
  lemma TempShows(pt: map<Va, Pte>, mem: map<nat, Page>, th: map<nat, Thread>, m: Image,
                  pt1: map<Va, Pte>, mem1: map<nat, Page>, th1: map<nat, Thread>)
    requires Shows(pt, mem, th, m) && SameTransit(th, th1)
    requires forall k: Va :: k.pn != PFTEMP ==> (k in pt1 <==> k in pt)
    requires forall k :: k in pt && Settled(th, k) ==>
      && CellOf(k, pt1[k]) == CellOf(k, pt[k])
      && PageIn(mem1, pt1[k].frame) == PageIn(mem, pt[k].frame)
    ensures Shows(pt1, mem1, th1, m)
  {
  }

  lemma HandlerAllocKeeps(s: State, kind: map<nat, Kind>, e: nat, f: nat, m: Image)
    requires InvBy(s, kind) && Shows(s.pt, s.mem, s.th, m) && Enabled(s, HandlerAlloc(e, f))
    ensures InvBy(Next(s, HandlerAlloc(e, f)), kind[f := Owned(Va(e, PFTEMP))])
    ensures var s1 := Next(s, HandlerAlloc(e, f)); Shows(s1.pt, s1.mem, s1.th, m)
  {
    hide Kinds, Threads, Forks, Shows, SameTransit, Handlers;
    var t := Va(e, PFTEMP);
    var pt1, th1 := s.pt[t := Pte(f, RW)], GoStage(s.th, e, Allocated);
    StageMoves(s.th, e, Allocated);
    NewKinds(s.pt, s.th, kind, t, Pte(f, RW), Owned(t));
    IdleKinds(pt1, s.th, kind[f := Owned(t)], th1);
    NewForks(s.pt, s.th, t, Pte(f, RW));
    SameForks(pt1, s.th, th1);
    AllocHandlers(s, kind, e, f);
    TempShows(s.pt, s.mem, s.th, m, pt1, s.mem[f := ZEROS], th1);
  }

  lemma CopyHandlers(s: State, kind: map<nat, Kind>, e: nat)
    requires Threads(s.th) && Kinds(s.pt, s.th, kind)
    requires Handlers(s.pt, s.mem, s.th, kind) && InStage(s.th, e, Allocated)
    ensures var mem1 := s.mem[FrameAt(s.pt, Va(e, PFTEMP)) := PageIn(s.mem, FrameAt(s.pt, Faulting(s.th, e)))];
      && Handlers(s.pt, mem1, GoStage(s.th, e, Copied), kind)
      && (forall k :: k in s.pt && Settled(s.th, k) ==> s.pt[k].frame != FrameAt(s.pt, Va(e, PFTEMP)))
  {
    hide Threads;
    HandlerRuns(s.th);
    var t := Va(e, PFTEMP);
    assert HandlerOk(s.pt, s.mem, kind, e, s.th[e].fault);
    var mem1 := s.mem[FrameAt(s.pt, t) := PageIn(s.mem, FrameAt(s.pt, Faulting(s.th, e)))];
    var th1 := GoStage(s.th, e, Copied);
    forall x | x in th1 ensures HandlerOk(s.pt, mem1, kind, x, th1[x].fault) {
      assert HandlerOk(s.pt, s.mem, kind, x, s.th[x].fault);
    }
  }

  lemma HandlerCopyKeeps(s: State, kind: map<nat, Kind>, e: nat, m: Image)
    requires InvBy(s, kind) && Shows(s.pt, s.mem, s.th, m) && Enabled(s, HandlerCopy(e))
    ensures InvBy(Next(s, HandlerCopy(e)), kind)
    ensures var s1 := Next(s, HandlerCopy(e)); Shows(s1.pt, s1.mem, s1.th, m)
  {
    hide Kinds, Threads, Forks, Shows, SameTransit, Handlers;
    var th1 := GoStage(s.th, e, Copied);
    StageMoves(s.th, e, Copied);
    IdleKinds(s.pt, s.th, kind, th1);
    SameForks(s.pt, s.th, th1);
    CopyHandlers(s, kind, e);
    IdleShows(s.pt, s.mem, s.th, m, Next(s, HandlerCopy(e)).mem, th1);
  }

  lemma CopiedFacts(s: State, kind: map<nat, Kind>, e: nat)
    requires InvBy(s, kind) && InStage(s.th, e, Copied)
    ensures var k, t := Faulting(s.th, e), Va(e, PFTEMP);
      && k.pn != PFTEMP && Settled(s.th, k) && TempOk(s.pt, kind, t) && CowAt(s.pt, k)
      && PageIn(s.mem, s.pt[t].frame) == PageIn(s.mem, s.pt[k].frame)
  {
  }

  /** The private copy takes over the page; its frame now belongs to the page instead of PFTEMP. */
  lemma MapKinds(pt: map<Va, Pte>, th: map<nat, Thread>, kind: map<nat, Kind>, k: Va, t: Va)
    requires Kinds(pt, th, kind) && TempOk(pt, kind, t) && t.pn == PFTEMP && k in pt && Settled(th, k)
    ensures Kinds(pt[k := Pte(pt[t].frame, RW)], th, kind[pt[t].frame := Owned(k)])
  {
  }

  lemma MapHandlers(s: State, kind: map<nat, Kind>, e: nat)
    requires InvBy(s, kind) && InStage(s.th, e, Copied)
    ensures var k, t := Faulting(s.th, e), Va(e, PFTEMP);
      Handlers(s.pt[k := Pte(FrameAt(s.pt, t), RW)], s.mem, GoStage(s.th, e, Remapped),
               kind[FrameAt(s.pt, t) := Owned(k)])
  {
    hide Threads, Forks, Kinds;
    HandlerRuns(s.th);
    var k, t := Faulting(s.th, e), Va(e, PFTEMP);
    assert HandlerOk(s.pt, s.mem, kind, e, s.th[e].fault);
    var kind1 := kind[FrameAt(s.pt, t) := Owned(k)];
    var pt1 := s.pt[k := Pte(FrameAt(s.pt, t), RW)];
    var th1 := GoStage(s.th, e, Remapped);
    forall x | x in th1 ensures HandlerOk(pt1, s.mem, kind1, x, th1[x].fault) {
      assert HandlerOk(s.pt, s.mem, kind, x, s.th[x].fault);
    }
  }

  lemma MapForks(s: State, kind: map<nat, Kind>, e: nat, f: nat)
    requires InvBy(s, kind) && InStage(s.th, e, Copied)
    ensures Forks(s.pt[Faulting(s.th, e) := Pte(f, RW)], s.th)
  {
  }

  lemma HandlerMapKeeps(s: State, kind: map<nat, Kind>, e: nat, m: Image)
    requires InvBy(s, kind) && Shows(s.pt, s.mem, s.th, m) && Enabled(s, HandlerMap(e))
    ensures InvBy(Next(s, HandlerMap(e)), kind[FrameAt(s.pt, Va(e, PFTEMP)) := Owned(Faulting(s.th, e))])
    ensures var s1 := Next(s, HandlerMap(e)); Shows(s1.pt, s1.mem, s1.th, m)
  {
    hide Kinds, Threads, Forks, Shows, SameTransit, Handlers;
    var k, t := Faulting(s.th, e), Va(e, PFTEMP);
    CopiedFacts(s, kind, e);
    var th1, pt1 := GoStage(s.th, e, Remapped), s.pt[k := Pte(s.pt[t].frame, RW)];
    StageMoves(s.th, e, Remapped);
    MapHandlers(s, kind, e);
    MapForks(s, kind, e, FrameAt(s.pt, t));
    MapKinds(s.pt, s.th, kind, k, t);
    IdleKinds(pt1, s.th, kind[s.pt[t].frame := Owned(k)], th1);
    SameForks(pt1, s.th, th1);
    TempShows(s.pt, s.mem, s.th, m, pt1, s.mem, th1);
  }

  lemma UnmapHandlers(s: State, kind: map<nat, Kind>, e: nat)
    requires Threads(s.th) && Handlers(s.pt, s.mem, s.th, kind) && InStage(s.th, e, Remapped)
    ensures Handlers(s.pt - {Va(e, PFTEMP)}, s.mem, GoFault(s.th, e, NoFault), kind)
  {
  }

  lemma DropKinds(pt: map<Va, Pte>, th: map<nat, Thread>, kind: map<nat, Kind>, k: Va)
    requires Kinds(pt, th, kind)
    ensures Kinds(pt - {k}, th, kind)
  {
  }

  lemma HandlerUnmapKeeps(s: State, kind: map<nat, Kind>, e: nat, m: Image)
    requires InvBy(s, kind) && Shows(s.pt, s.mem, s.th, m) && Enabled(s, HandlerUnmap(e))
    ensures InvBy(Next(s, HandlerUnmap(e)), kind)
    ensures var s1 := Next(s, HandlerUnmap(e)); Shows(s1.pt, s1.mem, s1.th, m)
  {
    hide Kinds, Threads, Forks, Shows, SameTransit, Handlers;
    var t := Va(e, PFTEMP);
    var pt1, th1 := s.pt - {t}, GoFault(s.th, e, NoFault);
    HandlerRuns(s.th);
    FaultMoves(s.th, e, NoFault);
    DropKinds(s.pt, s.th, kind, t);
    IdleKinds(pt1, s.th, kind, th1);
    NewForks(s.pt, s.th, t, Pte(0, RW));
    SameForks(pt1, s.th, th1);
    UnmapHandlers(s, kind, e);
    TempShows(s.pt, s.mem, s.th, m, pt1, s.mem, th1);
  }

  // ------------------------------------------------- the user's own mappings

  lemma PageAllocKeeps(s: State, kind: map<nat, Kind>, k: Va, f: nat, perm: Perm, m: Image)
    requires InvBy(s, kind) && Shows(s.pt, s.mem, s.th, m) && Enabled(s, PageAlloc(k, f, perm))
    ensures InvBy(Next(s, PageAlloc(k, f, perm)), kind[f := KindOf(k, perm)])
    ensures var s1 := Next(s, PageAlloc(k, f, perm));
      Shows(s1.pt, s1.mem, s1.th, Eager(m, EventOf(s, PageAlloc(k, f, perm))))
  {
    hide Kinds, Threads, Forks, Shows, Handlers;
    var x := Pte(f, perm);
    NewKinds(s.pt, s.th, kind, k, x, KindOf(k, perm));
    NewForks(s.pt, s.th, k, x);
    NewHandlers(s.pt, s.mem, s.th, kind, k, x, KindOf(k, perm));
    NewShows(s.pt, s.mem, s.th, m, k, x);
  }

  lemma PageUnmapKeeps(s: State, kind: map<nat, Kind>, k: Va, m: Image)
    requires InvBy(s, kind) && Shows(s.pt, s.mem, s.th, m) && Enabled(s, PageUnmap(k))
    ensures InvBy(Next(s, PageUnmap(k)), kind)
    ensures var s1 := Next(s, PageUnmap(k)); Shows(s1.pt, s1.mem, s1.th, Eager(m, EventOf(s, PageUnmap(k))))
  {
    hide Kinds, Threads, Forks, Shows, Handlers;
    DropKinds(s.pt, s.th, kind, k);
    NewForks(s.pt, s.th, k, Pte(0, RW));
    DropHandlers(s.pt, s.mem, s.th, kind, k);
    DropShows(s.pt, s.mem, s.th, m, k);
  }

  // ------------------------------------------------------------------- fork

  lemma ExoforkThreads(th: map<nat, Thread>, e: nat, c: nat)
    requires Threads(th) && AtLeisure(th, e) && c !in th
    ensures var th1 := GoFork(th, e, At(c, 0, Look))[c := Thread(Some(e), NoFork, NoFault)];
      Threads(th1) && SameTransit(th, th1)
  {
  }

  lemma ExoforkKeeps(s: State, kind: map<nat, Kind>, e: nat, c: nat, m: Image)
    requires InvBy(s, kind) && Shows(s.pt, s.mem, s.th, m) && Enabled(s, Exofork(e, c))
    ensures InvBy(Next(s, Exofork(e, c)), kind)
    ensures var s1 := Next(s, Exofork(e, c)); Shows(s1.pt, s1.mem, s1.th, m)
  {
    hide Threads, Shows, SameTransit, Kinds;
    var th1 := GoFork(s.th, e, At(c, 0, Look))[c := Thread(Some(e), NoFork, NoFault)];
    NoPages(s, kind, Va(c, PFTEMP));
    ExoforkThreads(s.th, e, c);
    IdleKinds(s.pt, s.th, kind, th1);
    IdleShows(s.pt, s.mem, s.th, m, s.mem, th1);
    assert Forks(s.pt, th1);
    forall x | x in th1 ensures HandlerOk(s.pt, s.mem, kind, x, th1[x].fault) {
      assert x != c ==> HandlerOk(s.pt, s.mem, kind, x, s.th[x].fault);
    }
  }

  lemma LookAtKeeps(s: State, kind: map<nat, Kind>, e: nat, m: Image)
    requires InvBy(s, kind) && Shows(s.pt, s.mem, s.th, m) && Enabled(s, LookAt(e))
    ensures InvBy(Next(s, LookAt(e)), kind)
    ensures var s1 := Next(s, LookAt(e)); Shows(s1.pt, s1.mem, s1.th, m)
  {
    hide Kinds, Threads, Shows, SameTransit, Handlers;
    var fork := AfterLook(s.pt, Own(s.th, e), s.th[e].fork.child);
    var th1 := GoFork(s.th, e, fork);
    HandlerAt(s, kind, e);
    ForkMoves(s.th, e, fork);
    IdleKinds(s.pt, s.th, kind, th1);
    IdleShows(s.pt, s.mem, s.th, m, s.mem, th1);
    OtherHandlers(s.pt, s.mem, s.th, kind, th1, e);
    assert DupOk(s.pt, e, fork);
    forall x | x in th1 ensures DupOk(s.pt, x, th1[x].fork) {
      assert x != e ==> DupOk(s.pt, x, s.th[x].fork);
    }
  }

  /** What is known when duppage maps the page into the child. */
  lemma OwnPage(s: State, kind: map<nat, Kind>, e: nat)
    requires InvBy(s, kind) && InPhase(s.th, e) && !s.th[e].fork.phase.Look?
    ensures var k, c := Own(s.th, e), Its(s.th, e);
      && k in s.pt && k.pn != PFTEMP && k.pn < LIMIT && Settled(s.th, k)
      && s.pt[k].frame in kind && kind[s.pt[k].frame] == KindOf(k, s.pt[k].perm)
      && c.env in s.th && c.env != e && s.th[c.env].maker == Some(e) && s.th[c.env].fault == NoFault
      && s.th[c.env].fork == NoFork && DupOk(s.pt, e, s.th[e].fork)
  {
  }

  /** While thread e is inside fork, only the transit of the page it works on can change. */
  lemma TransitMoves(th: map<nat, Thread>, e: nat, fork: Fork)
    requires Threads(th) && e in th && th[e].fork.At? && fork.At? && fork.child == th[e].fork.child
    ensures var th1 := GoFork(th, e, fork);
      && th1.Keys == th.Keys
      && (forall k :: InTransit(th1, k) != InTransit(th, k) ==>
            k.env == fork.child && (k.pn == fork.pn || k.pn == th[e].fork.pn))
      && (forall k: Va :: k.env == fork.child ==>
            InTransit(th1, k) == Sending(th1, e, k) && InTransit(th, k) == Sending(th, e, k))
  {
  }

  lemma PutHandlers(pt: map<Va, Pte>, mem: map<nat, Page>, th: map<nat, Thread>, kind: map<nat, Kind>, k: Va, x: Pte)
    requires Handlers(pt, mem, th, kind) && k.env in th && k.pn != PFTEMP && th[k.env].fault == NoFault
    ensures Handlers(pt[k := x], mem, th, kind)
  {
  }

  lemma SameHandlers(pt: map<Va, Pte>, mem: map<nat, Page>, th: map<nat, Thread>, kind: map<nat, Kind>, th1: map<nat,
                     Thread>)
    requires Handlers(pt, mem, th, kind) && th1.Keys == th.Keys && forall e :: e in th ==> th1[e].fault == th[e].fault
    ensures Handlers(pt, mem, th1, kind)
  {
  }

  lemma MapChildKinds(s: State, kind: map<nat, Kind>, e: nat)
    requires InvBy(s, kind) && Enabled(s, MapChild(e))
    ensures Kinds(Next(s, MapChild(e)).pt, Next(s, MapChild(e)).th, kind)
  {
    hide Threads, Forks, Handlers;
    OwnPage(s, kind, e);
    var k, c := Own(s.th, e), Its(s.th, e);
    var fork := AfterChild(s.pt[k].perm, k, s.th[e].fork.child, s.th[e].fork.phase.perm, s.th[e].fork.phase.remap);
    TransitMoves(s.th, e, fork);
    var s1 := Next(s, MapChild(e));
    forall j | j in s1.pt ensures j.env in s1.th && s1.pt[j].frame in kind
      && (Settled(s1.th, j) ==> kind[s1.pt[j].frame] == KindOf(j, s1.pt[j].perm))
    {
    }
  }

  lemma MapChildForks(s: State, kind: map<nat, Kind>, e: nat)
    requires InvBy(s, kind) && Enabled(s, MapChild(e))
    ensures Forks(Next(s, MapChild(e)).pt, Next(s, MapChild(e)).th)
  {
    hide Kinds, Handlers;
    OwnPage(s, kind, e);
    var s1 := Next(s, MapChild(e));
    forall x | x in s1.th ensures DupOk(s1.pt, x, s1.th[x].fork) {
      assert DupOk(s.pt, x, s.th[x].fork) && ForkOk(s.th, x);
    }
  }

  lemma ChildOf(th: map<nat, Thread>, e: nat)
    requires Threads(th) && e in th && th[e].fork != NoFork
    ensures var c := th[e].fork.child;
      && c in th && c != e && th[c].maker == Some(e) && th[c].fault == NoFault && th[c].fork == NoFork
      && th[e].maker == None
  {
  }

  /** Every page except dst keeps its cell, its frame and its settledness. */
  ghost predicate OnlyAt(pt: map<Va, Pte>, th: map<nat, Thread>, pt1: map<Va, Pte>, th1: map<nat, Thread>, dst: Va) {
    && pt1.Keys == pt.Keys + {dst}
    && (forall j :: j in pt && j != dst ==> pt1[j].frame == pt[j].frame && CellOf(j, pt1[j]) == CellOf(j, pt[j]))
    && (forall j :: j != dst ==> Settled(th1, j) == Settled(th, j))
  }

  lemma CopyShows(pt: map<Va, Pte>, mem: map<nat, Page>, th: map<nat, Thread>, m: Image,
                  pt1: map<Va, Pte>, th1: map<nat, Thread>, src: Va, dst: Va)
    requires Shows(pt, mem, th, m) && OnlyAt(pt, th, pt1, th1, dst) && src in pt && Settled(th, src)
    requires pt1[dst].frame == pt[src].frame && CellOf(dst, pt1[dst]) == Private(dst) && Settled(th1, dst)
    ensures Shows(pt1, mem, th1, Eager(m, Copy(src, dst)))
  {
  }

  lemma ShareShows(pt: map<Va, Pte>, mem: map<nat, Page>, th: map<nat, Thread>, m: Image,
                   pt1: map<Va, Pte>, th1: map<nat, Thread>, src: Va, dst: Va)
    requires Shows(pt, mem, th, m) && OnlyAt(pt, th, pt1, th1, dst) && src in pt && Settled(th, src)
    requires pt1[dst].frame == pt[src].frame && Settled(th1, dst)
    requires CellOf(dst, pt1[dst]) == CellOf(src, pt[src])
    ensures Shows(pt1, mem, th1, Eager(m, Share(src, dst)))
  {
  }

  lemma SendShows(pt: map<Va, Pte>, mem: map<nat, Page>, th: map<nat, Thread>, m: Image,
                  pt1: map<Va, Pte>, th1: map<nat, Thread>, dst: Va)
    requires Shows(pt, mem, th, m) && OnlyAt(pt, th, pt1, th1, dst) && !Settled(th1, dst)
    ensures Shows(pt1, mem, th1, Eager(m, Drop(dst)))
  {
  }

  /** fork goes on, on the same page or to the next: only that page of the child can settle or unsettle. */
  lemma SettledMoves(th: map<nat, Thread>, e: nat, fork: Fork)
    requires Threads(th) && e in th && th[e].fork.At? && th[e].fork.pn != PFTEMP
    requires fork.At? && fork.child == th[e].fork.child
    requires fork.pn == th[e].fork.pn || fork.phase == Look
    ensures var th1 := GoFork(th, e, fork);
      var c := Its(th, e);
      && (forall j :: j != c ==> Settled(th1, j) == Settled(th, j))
      && (Settled(th1, c) <==> !(fork.phase.Mapped? && fork.phase.pending))
      && th.Keys == th1.Keys
  {
  }

  lemma MapChildOnly(s: State, kind: map<nat, Kind>, e: nat)
    requires InvBy(s, kind) && Enabled(s, MapChild(e))
    ensures var s1 := Next(s, MapChild(e));
      var own := s.pt[Own(s.th, e)].perm;
      && OnlyAt(s.pt, s.th, s1.pt, s1.th, Its(s.th, e))
      && (Settled(s1.th, Its(s.th, e)) <==> s.th[e].fork.phase.perm.w || !(own.w && !own.share))
  {
    hide Threads, Forks, Handlers, Kinds, Settled, GoFork, KindOf;
    OwnPage(s, kind, e);
    var k := Own(s.th, e);
    var fork := AfterChild(s.pt[k].perm, k, s.th[e].fork.child, s.th[e].fork.phase.perm, s.th[e].fork.phase.remap);
    SettledMoves(s.th, e, fork);
  }

  lemma MapChildShows(s: State, kind: map<nat, Kind>, e: nat, m: Image)
    requires InvBy(s, kind) && Shows(s.pt, s.mem, s.th, m) && Enabled(s, MapChild(e))
    ensures var s1 := Next(s, MapChild(e)); Shows(s1.pt, s1.mem, s1.th, Eager(m, EventOf(s, MapChild(e))))
  {
    hide Threads, Forks, Handlers, Kinds, Shows, OnlyAt, Eager, Settled;
    OwnPage(s, kind, e);
    MapChildOnly(s, kind, e);
    var s1 := Next(s, MapChild(e));
    var own := s.pt[Own(s.th, e)].perm;
    if s.th[e].fork.phase.perm.w {
      ShareShows(s.pt, s.mem, s.th, m, s1.pt, s1.th, Own(s.th, e), Its(s.th, e));
    } else if own.w && !own.share {
      SendShows(s.pt, s.mem, s.th, m, s1.pt, s1.th, Its(s.th, e));
    } else {
      CopyShows(s.pt, s.mem, s.th, m, s1.pt, s1.th, Own(s.th, e), Its(s.th, e));
    }
  }

  lemma MapChildKeeps(s: State, kind: map<nat, Kind>, e: nat, m: Image)
    requires InvBy(s, kind) && Shows(s.pt, s.mem, s.th, m) && Enabled(s, MapChild(e))
    ensures InvBy(Next(s, MapChild(e)), kind)
    ensures var s1 := Next(s, MapChild(e)); Shows(s1.pt, s1.mem, s1.th, Eager(m, EventOf(s, MapChild(e))))
  {
    hide Kinds, Threads, Forks, Handlers, Shows, DupOk;
    var s1 := Next(s, MapChild(e));
    OwnPage(s, kind, e);
    MapChildKinds(s, kind, e);
    MapChildForks(s, kind, e);
    MapChildShows(s, kind, e, m);
    ForkThreads(s.th, e, s1.th[e].fork);
    PutHandlers(s.pt, s.mem, s.th, kind, Its(s.th, e), s1.pt[Its(s.th, e)]);
    SameHandlers(s1.pt, s1.mem, s.th, kind, s1.th);
  }

  /** Marking our own page: a private frame stops being writable. */
  function SelfKind(s: State, kind: map<nat, Kind>, e: nat): map<nat, Kind>
    requires Enabled(s, MapSelf(e))
  {
    if s.th[e].fork.phase.perm.w then kind else kind[s.pt[Own(s.th, e)].frame := Frozen]
  }

  /** Which pages settle when our own page has been marked: the child's copy, if it was in transit. */
  lemma MapSelfSettles(s: State, kind: map<nat, Kind>, e: nat, j: Va)
    requires InvBy(s, kind) && Enabled(s, MapSelf(e)) && j in s.pt
    ensures Next(s, MapSelf(e)).th.Keys == s.th.Keys && j.env in s.th
    ensures Settled(Next(s, MapSelf(e)).th, j) && !Settled(s.th, j) ==>
      j == Its(s.th, e) && s.th[e].fork.phase.pending && !s.pt[j].perm.w
  {
    hide Threads, Forks, Handlers;
    OwnPage(s, kind, e);
    TransitMoves(s.th, e, At(s.th[e].fork.child, s.th[e].fork.pn + 1, Look));
  }

  lemma MapSelfKinds(s: State, kind: map<nat, Kind>, e: nat)
    requires InvBy(s, kind) && Enabled(s, MapSelf(e))
    ensures Kinds(Next(s, MapSelf(e)).pt, Next(s, MapSelf(e)).th, SelfKind(s, kind, e))
  {
    hide Threads, Forks, Handlers, Settled, GoFork;
    OwnPage(s, kind, e);
    var s1, kind1 := Next(s, MapSelf(e)), SelfKind(s, kind, e);
    forall j | j in s1.pt ensures j.env in s1.th && s1.pt[j].frame in kind1
      && (Settled(s1.th, j) ==> kind1[s1.pt[j].frame] == KindOf(j, s1.pt[j].perm))
    {
      MapSelfSettles(s, kind, e, j);
    }
  }

  lemma MapSelfForks(s: State, kind: map<nat, Kind>, e: nat)
    requires InvBy(s, kind) && Enabled(s, MapSelf(e))
    ensures Forks(Next(s, MapSelf(e)).pt, Next(s, MapSelf(e)).th)
  {
    hide Kinds, Handlers;
    OwnPage(s, kind, e);
    var s1 := Next(s, MapSelf(e));
    forall x | x in s1.th ensures DupOk(s1.pt, x, s1.th[x].fork) {
      assert DupOk(s.pt, x, s.th[x].fork) && ForkOk(s.th, x);
    }
  }

  /** A new permission on page k does not disturb handler x. */
  lemma RemapHandler(pt: map<Va, Pte>, mem: map<nat, Page>, kind: map<nat, Kind>, k: Va, perm: Perm, kind1: map<nat,
                     Kind>,
                     x: nat, fault: Fault)
    requires HandlerOk(pt, mem, kind, x, fault) && k in pt && k.pn != PFTEMP && (x == k.env ==> fault == NoFault)
    requires pt[k].frame in kind && kind[pt[k].frame] == KindOf(k, pt[k].perm)
    requires kind1 == kind || kind1 == kind[pt[k].frame := Frozen]
    ensures HandlerOk(pt[k := Pte(pt[k].frame, perm)], mem, kind1, x, fault)
  {
  }

  lemma MapSelfHandlers(s: State, kind: map<nat, Kind>, e: nat)
    requires InvBy(s, kind) && Enabled(s, MapSelf(e))
    ensures Handlers(Next(s, MapSelf(e)).pt, s.mem, s.th, SelfKind(s, kind, e))
  {
    OwnPage(s, kind, e);
    hide Kinds, Threads, Forks, HandlerOk, KindOf;
    var pt1, kind1 := Next(s, MapSelf(e)).pt, SelfKind(s, kind, e);
    forall x | x in s.th ensures HandlerOk(pt1, s.mem, kind1, x, s.th[x].fault) {
      assert HandlerOk(s.pt, s.mem, kind, x, s.th[x].fault);
      RemapHandler(s.pt, s.mem, kind, Own(s.th, e), s.th[e].fork.phase.perm, kind1, x, s.th[x].fault);
    }
  }

  lemma MapSelfOnly(s: State, kind: map<nat, Kind>, e: nat)
    requires InvBy(s, kind) && Enabled(s, MapSelf(e))
    ensures var s1 := Next(s, MapSelf(e));
      var k, c := Own(s.th, e), Its(s.th, e);
      && s1.pt[k].frame == s.pt[k].frame && CellOf(k, s1.pt[k]) == CellOf(k, s.pt[k])
      && (s.th[e].fork.phase.pending ==>
            Pending(s.pt, k, c) && OnlyAt(s.pt, s.th, s1.pt, s1.th, c) && Settled(s1.th, c))
  {
    hide Threads, Forks, Handlers, Kinds, Settled;
    OwnPage(s, kind, e);
    SettledMoves(s.th, e, At(s.th[e].fork.child, s.th[e].fork.pn + 1, Look));
    hide GoFork, KindOf;
  }

  lemma MapSelfShows(s: State, kind: map<nat, Kind>, e: nat, m: Image)
    requires InvBy(s, kind) && Shows(s.pt, s.mem, s.th, m) && Enabled(s, MapSelf(e))
    ensures var s1 := Next(s, MapSelf(e)); Shows(s1.pt, s1.mem, s1.th, Eager(m, EventOf(s, MapSelf(e))))
  {
    hide Threads, Forks, Handlers, Kinds, Shows, OnlyAt, SameTransit, Settled;
    OwnPage(s, kind, e);
    MapSelfOnly(s, kind, e);
    var s1 := Next(s, MapSelf(e));
    var k, c := Own(s.th, e), Its(s.th, e);
    if s.th[e].fork.phase.pending {
      CopyShows(s.pt, s.mem, s.th, m, s1.pt, s1.th, k, c);
    } else {
      ForkMoves(s.th, e, s1.th[e].fork);
      TempShows(s.pt, s.mem, s.th, m, s1.pt, s1.mem, s1.th);
    }
  }

  lemma MapSelfKeeps(s: State, kind: map<nat, Kind>, e: nat, m: Image)
    requires InvBy(s, kind) && Shows(s.pt, s.mem, s.th, m) && Enabled(s, MapSelf(e))
    ensures InvBy(Next(s, MapSelf(e)), SelfKind(s, kind, e))
    ensures var s1 := Next(s, MapSelf(e)); Shows(s1.pt, s1.mem, s1.th, Eager(m, EventOf(s, MapSelf(e))))
  {
    hide Kinds, Threads, Forks, Handlers, Shows, DupOk;
    var s1 := Next(s, MapSelf(e));
    MapSelfKinds(s, kind, e);
    MapSelfForks(s, kind, e);
    MapSelfShows(s, kind, e, m);
    ForkThreads(s.th, e, s1.th[e].fork);
    MapSelfHandlers(s, kind, e);
    SameHandlers(s1.pt, s1.mem, s.th, SelfKind(s, kind, e), s1.th);
  }

  lemma ChildStackKeeps(s: State, kind: map<nat, Kind>, e: nat, f: nat, m: Image)
    requires InvBy(s, kind) && Shows(s.pt, s.mem, s.th, m) && Enabled(s, ChildStack(e, f))
    ensures InvBy(Next(s, ChildStack(e, f)), kind[f := Owned(Va(s.th[e].fork.child, XSTACK))])
    ensures var s1 := Next(s, ChildStack(e, f)); Shows(s1.pt, s1.mem, s1.th, Eager(m, EventOf(s, ChildStack(e, f))))
  {
    hide Kinds, Threads, Forks, Handlers, Shows, SameTransit;
    var c := s.th[e].fork.child;
    var k, x := Va(c, XSTACK), Pte(f, RW);
    var s1 := Next(s, ChildStack(e, f));
    ChildOf(s.th, e);
    assert Settled(s.th, k);
    NewKinds(s.pt, s.th, kind, k, x, Owned(k));
    NewForks(s.pt, s.th, k, x);
    NewHandlers(s.pt, s.mem, s.th, kind, k, x, Owned(k));
    NewShows(s.pt, s.mem, s.th, m, k, x);
    ForkMoves(s.th, e, Stacked(c));
    IdleKinds(s1.pt, s.th, kind[f := Owned(k)], s1.th);
    SameHandlers(s1.pt, s1.mem, s.th, kind[f := Owned(k)], s1.th);
    IdleShows(s1.pt, s1.mem, s.th, Eager(m, EventOf(s, ChildStack(e, f))), s1.mem, s1.th);
    LeaveForks(s1.pt, s.th, e, Stacked(c));
  }

  lemma LeaveForks(pt: map<Va, Pte>, th: map<nat, Thread>, e: nat, fork: Fork)
    requires Forks(pt, th) && e in th && !fork.At?
    ensures Forks(pt, GoFork(th, e, fork))
  {
  }

  lemma ReleaseThreads(th: map<nat, Thread>, e: nat)
    requires Threads(th) && e in th && th[e].fork.Stacked?
    ensures var th1 := Release(th, e, th[e].fork.child);
      && Threads(th1) && SameTransit(th, th1) && th1.Keys == th.Keys
      && (forall x :: x in th ==> th1[x].fault == th[x].fault)
      && (forall x :: x in th && x != e ==> th1[x].fork == th[x].fork) && th1[e].fork == NoFork
  {
    ChildOf(th, e);
    var c := th[e].fork.child;
    var th1 := Release(th, e, c);
    forall x | x in th1 ensures ForkOk(th1, x) && MakerOk(th1, x) {
      assert ForkOk(th, x) && MakerOk(th, x);
    }
  }

  lemma SetRunnableKeeps(s: State, kind: map<nat, Kind>, e: nat, m: Image)
    requires InvBy(s, kind) && Shows(s.pt, s.mem, s.th, m) && Enabled(s, SetRunnable(e))
    ensures InvBy(Next(s, SetRunnable(e)), kind)
    ensures var s1 := Next(s, SetRunnable(e)); Shows(s1.pt, s1.mem, s1.th, m)
  {
    hide Kinds, Threads, Handlers, Shows, SameTransit;
    var s1 := Next(s, SetRunnable(e));
    ReleaseThreads(s.th, e);
    IdleKinds(s.pt, s.th, kind, s1.th);
    SameHandlers(s.pt, s.mem, s.th, kind, s1.th);
    IdleShows(s.pt, s.mem, s.th, m, s.mem, s1.th);
    forall x | x in s1.th ensures DupOk(s.pt, x, s1.th[x].fork) {
      assert DupOk(s.pt, x, s.th[x].fork);
    }
  }

  // ------------------------------------------------------------ the theorems

  /** Every step keeps the invariant and is one event of the eager machine. */
  lemma StepRefines(s: State, a: Action, m: Image)
    requires Inv(s) && Shows(s.pt, s.mem, s.th, m) && Enabled(s, a)
    ensures Inv(Next(s, a))
    ensures Shows(Next(s, a).pt, Next(s, a).mem, Next(s, a).th, Eager(m, EventOf(s, a)))
  {
    hide InvBy, Shows, Enabled, Next, Eager, EventOf;
    var kind :| InvBy(s, kind);
    StepRefinesBy(s, kind, a, m);
  }

  lemma WriteRefines(s: State, kind: map<nat, Kind>, k: Va, i: nat, b: int, m: Image)
    requires InvBy(s, kind) && Shows(s.pt, s.mem, s.th, m) && Enabled(s, Write(k, i, b))
    ensures InvBy(Next(s, Write(k, i, b)), kind)
    ensures var s1 := Next(s, Write(k, i, b)); Shows(s1.pt, s1.mem, s1.th, Eager(m, Store(k, i, b)))
  {
    hide Kinds, Threads, Forks, Handlers, Shows, Eager;
    WriteKeeps(s, kind, k, Poke(PageIn(s.mem, s.pt[k].frame), i, b));
    WriteShows(s.pt, s.mem, s.th, kind, m, k, i, b);
  }

  lemma StepRefinesBy(s: State, kind: map<nat, Kind>, a: Action, m: Image)
    requires InvBy(s, kind) && Shows(s.pt, s.mem, s.th, m) && Enabled(s, a)
    ensures Inv(Next(s, a))
    ensures Shows(Next(s, a).pt, Next(s, a).mem, Next(s, a).th, Eager(m, EventOf(s, a)))
  {
    hide InvBy, Shows, Enabled, Next;
    match a
    case Write(k, i, b) => WriteRefines(s, kind, k, i, b, m);
    case TakeFault(k) => TakeFaultKeeps(s, kind, k, m);
    case HandlerAlloc(e, f) => HandlerAllocKeeps(s, kind, e, f, m);
    case HandlerCopy(e) => HandlerCopyKeeps(s, kind, e, m);
    case HandlerMap(e) => HandlerMapKeeps(s, kind, e, m);
    case HandlerUnmap(e) => HandlerUnmapKeeps(s, kind, e, m);
    case PageAlloc(k, f, perm) => PageAllocKeeps(s, kind, k, f, perm, m);
    case PageUnmap(k) => PageUnmapKeeps(s, kind, k, m);
    case Exofork(e, c) => ExoforkKeeps(s, kind, e, c, m);
    case LookAt(e) => LookAtKeeps(s, kind, e, m);
    case MapChild(e) => MapChildKeeps(s, kind, e, m);
    case MapSelf(e) => MapSelfKeeps(s, kind, e, m);
    case ChildStack(e, f) => ChildStackKeeps(s, kind, e, f, m);
    case SetRunnable(e) => SetRunnableKeeps(s, kind, e, m);
  }

  /** `states` is an execution of `acts`: any interleaving of any threads. */
  ghost predicate Run(states: seq<State>, acts: seq<Action>) {
    && |states| == |acts| + 1
    && (forall i :: 0 <= i < |acts| ==> Enabled(states[i], acts[i]) && states[i + 1] == Next(states[i], acts[i]))
  }

  /** One environment with no memory. */
  ghost predicate Boot(s: State, e: nat) {
    s == State(map[], map[], map[e := Thread(None, NoFork, NoFault)])
  }

  /** The eager machine driven by the events of a run, after i steps. */
  ghost function EagerAfter(states: seq<State>, acts: seq<Action>, i: nat): Image
    requires Run(states, acts) && i <= |acts|
  {
    if i == 0 then Image(map[], map[])
    else Eager(EagerAfter(states, acts, i - 1), EventOf(states[i - 1], acts[i - 1]))
  }

  lemma BootInv(s: State, e: nat)
    requires Boot(s, e)
    ensures Inv(s) && Shows(s.pt, s.mem, s.th, Image(map[], map[]))
  {
    assert InvBy(s, map[]);
  }

  /** Copy-on-write fork refines the eager copy, for every interleaving of writes, faults and forks. */
  lemma {:induction false} RunRefines(states: seq<State>, acts: seq<Action>, e: nat, i: nat)
    requires Run(states, acts) && i <= |acts| && Boot(states[0], e)
    ensures Inv(states[i])
    ensures Shows(states[i].pt, states[i].mem, states[i].th, EagerAfter(states, acts, i))
  {
    hide Inv, Shows, Boot, Eager, EventOf;
    if i == 0 {
      BootInv(states[0], e);
    } else {
      RunRefines(states, acts, e, i - 1);
      StepRefines(states[i - 1], acts[i - 1], EagerAfter(states, acts, i - 1));
    }
  }

  /**
   Once an environment is runnable, no frame it maps without PTE_SHARE is writable in
   another one, whatever the page and whether or not that one runs yet.
   */
  lemma WritersAreAlone(s: State, a: Va, b: Va)
    requires Inv(s) && a in s.pt && b in s.pt && a.env != b.env && s.pt[a].frame == s.pt[b].frame
    requires s.pt[a].perm.w && b.env in s.th && s.th[b.env].maker == None
    ensures s.pt[b].perm.share && s.pt[a].perm.share
  {
    hide Forks, Handlers, Threads;
    var kind :| InvBy(s, kind);
    assert a.env in s.th;
    HandlerRuns(s.th);
    HandlerAt(s, kind, a.env);
    HandlerAt(s, kind, b.env);
    if InTransit(s.th, a) {
      TransitIsReadOnly(s, kind, a);
    }
  }

  /** The child's entry of a page that the parent may still write is read-only. */
  lemma TransitIsReadOnly(s: State, kind: map<nat, Kind>, k: Va)
    requires InvBy(s, kind) && k in s.pt && InTransit(s.th, k)
    ensures !s.pt[k].perm.w
  {
    hide Kinds, Handlers, Threads;
    assert DupOk(s.pt, s.th[k.env].maker.value, s.th[s.th[k.env].maker.value].fork);
  }

  /** The same at every point of every run. */
  lemma WritersAreAloneInRuns(states: seq<State>, acts: seq<Action>, e: nat, i: nat, a: Va, b: Va)
    requires Run(states, acts) && i <= |acts| && Boot(states[0], e)
    requires var s := states[i];
      && a in s.pt && b in s.pt && a.env != b.env && s.pt[a].frame == s.pt[b].frame
      && s.pt[a].perm.w && b.env in s.th && s.th[b.env].maker == None
    ensures states[i].pt[b].perm.share && states[i].pt[a].perm.share
  {
    hide Inv, Shows, Boot, Enabled, Next;
    RunRefines(states, acts, e, i);
    WritersAreAlone(states[i], a, b);
  }

  // -------------------------------------------------- what the eager copy means

  /** Private cells are really private. */
  ghost predicate Exclusive(m: Image) {
    && (forall k :: k in m.cell ==> m.cell[k] in m.val)
    && (forall k :: k in m.cell && m.cell[k].Private? ==> m.cell[k].va == k)
  }

  lemma ShowsExclusive(pt: map<Va, Pte>, mem: map<nat, Page>, th: map<nat, Thread>, m: Image)
    requires Shows(pt, mem, th, m)
    ensures Exclusive(m)
  {
  }

  /** The pages an event is about. */
  predicate Touches(ev: Event, k: Va) {
    match ev
    case Stutter => false
    case NewPage(va, _) => va == k
    case Drop(va) => va == k
    case Store(va, _, _) => va == k
    case Copy(_, dst) => dst == k
    case Share(_, dst) => dst == k
  }

  /** In the eager machine a private page changes only by an event on that page; a copy starts equal to its source. */
  lemma EagerIsolation(m: Image, ev: Event, k: Va)
    requires Exclusive(m) && k in m.cell
    requires ev.NewPage? && ev.cell.Group? ==> forall j :: j in m.cell ==> m.cell[j] != ev.cell
    requires ev.NewPage? && ev.cell.Private? ==> ev.cell.va == ev.va
    ensures m.cell[k].Private? && !Touches(ev, k) ==> k in Eager(m, ev).cell && Val(Eager(m, ev), k) == Val(m, k)
    ensures ev.Copy? && ev.src == k ==> Val(Eager(m, ev), ev.dst) == Val(m, k)
    ensures ev.Share? && ev.src == k ==> Eager(m, ev).cell[ev.dst] == Eager(m, ev).cell[k]
  {
  }

  // ------------------------------------------------------ the same, on memory

  function CellPage(pt: map<Va, Pte>, mem: map<nat, Page>, c: Cell): Page {
    match c
    case Private(k) => PageIn(mem, FrameAt(pt, k))
    case Group(f) => PageIn(mem, f)
  }

  ghost function ImageOf(s: State): Image {
    var cells := map k | k in s.pt && Settled(s.th, k) :: CellOf(k, s.pt[k]);
    Image(cells, map c | c in cells.Values :: CellPage(s.pt, s.mem, c))
  }

  lemma ImageShows(s: State)
    ensures Shows(s.pt, s.mem, s.th, ImageOf(s))
  {
  }

  function Content(s: State, k: Va): Page {
    PageIn(s.mem, FrameAt(s.pt, k))
  }

  /** The steps that may change what a page of a runnable environment holds. */
  predicate OwnAction(a: Action, k: Va) {
    match a
    case Write(va, _, _) => va == k
    case PageAlloc(va, _, _) => va == k
    case PageUnmap(va) => va == k
    case _ => false
  }

  /**
   Whatever any thread does, an unshared page of a runnable environment keeps its
   contents unless the environment itself writes, reallocates or unmaps it.
   */
  lemma UnsharedIsolation(s: State, a: Action, k: Va)
    requires Inv(s) && Enabled(s, a) && k in s.pt && k.pn != PFTEMP && !OwnAction(a, k)
    requires k.env in s.th && s.th[k.env].maker == None
    requires !(s.pt[k].perm.w && s.pt[k].perm.share)
    ensures k in Next(s, a).pt && Content(Next(s, a), k) == Content(s, k)
  {
    hide ImageOf, Inv, Enabled, Next, EventOf, Eager, Exclusive, Touches;
    var m := ImageOf(s);
    ImageShows(s);
    StepRefines(s, a, m);
    ShowsExclusive(s.pt, s.mem, s.th, m);
    EventMisses(s, a, k);
    GroupIsNew(s, a, m);
    EagerIsolation(m, EventOf(s, a), k);
    assert k in m.cell && m.cell[k] == Private(k);
  }

  /** The event behind a step touches a runnable environment's page only if the step is its own. */
  lemma EventMisses(s: State, a: Action, k: Va)
    requires Inv(s) && Enabled(s, a) && k.env in s.th && s.th[k.env].maker == None && !OwnAction(a, k)
    ensures !Touches(EventOf(s, a), k)
  {
  }

  lemma GroupIsNew(s: State, a: Action, m: Image)
    requires Enabled(s, a) && Shows(s.pt, s.mem, s.th, m)
    ensures var ev := EventOf(s, a);
      && (ev.NewPage? && ev.cell.Group? ==> forall j :: j in m.cell ==> m.cell[j] != ev.cell)
      && (ev.NewPage? && ev.cell.Private? ==> ev.cell.va == ev.va)
  {
  }

  /** A PTE_SHARE page that no write fault can move: writable, or not copy-on-write. */
  predicate Steady(pt: map<Va, Pte>, k: Va) {
    k in pt && pt[k].perm.share && (pt[k].perm.w || !pt[k].perm.cow)
  }

  /**
   Two steady PTE_SHARE pages on one frame stay together until one of them is reallocated
   or unmapped by its owner.
   */
  lemma SharedStays(s: State, a: Action, k1: Va, k2: Va)
    requires Inv(s) && Enabled(s, a) && Steady(s.pt, k1) && Steady(s.pt, k2) && s.pt[k1].frame == s.pt[k2].frame
    requires k1.pn != PFTEMP && k2.pn != PFTEMP && k1.env in s.th && k2.env in s.th
    requires s.th[k1.env].maker == None && s.th[k2.env].maker == None
    requires a.PageAlloc? || a.PageUnmap? ==> !OwnAction(a, k1) && !OwnAction(a, k2)
    ensures var pt := Next(s, a).pt;
      Steady(pt, k1) && Steady(pt, k2) && pt[k1].frame == pt[k2].frame
      && Content(Next(s, a), k1) == Content(Next(s, a), k2)
  {
    var kind :| InvBy(s, kind);
    SteadyKept(s, kind, a, k1);
    SteadyKept(s, kind, a, k2);
    hide InvBy, Inv, Enabled, Next;
  }

  lemma SteadyKept(s: State, kind: map<nat, Kind>, a: Action, k: Va)
    requires InvBy(s, kind) && Enabled(s, a) && Steady(s.pt, k)
    requires k.pn != PFTEMP && k.env in s.th && s.th[k.env].maker == None
    requires a.PageAlloc? || a.PageUnmap? ==> !OwnAction(a, k)
    ensures Steady(Next(s, a).pt, k) && Next(s, a).pt[k] == s.pt[k]
  {
    hide Kinds;
    if a.MapChild? || a.ChildStack? {
      ChildOf(s.th, a.env);
      hide Forks, Handlers;
    } else if a.MapSelf? {
      hide Handlers;
      assert DupOk(s.pt, a.env, s.th[a.env].fork);
    } else if a.HandlerMap? {
      hide Forks;
      assert HandlerOk(s.pt, s.mem, kind, a.env, s.th[a.env].fault);
    }
  }

  /**
   PTE_SHARE survives only on writable pages: the handler's remapping drops it and moves a
   read-only copy-on-write page to a frame of its own, whatever its PTE_SHARE bit said.
   */
  lemma FaultDropsShare(s: State, e: nat)
    requires Inv(s) && Enabled(s, HandlerMap(e))
    ensures var k := Faulting(s.th, e); var pt := Next(s, HandlerMap(e)).pt;
      k in s.pt && k in pt && !pt[k].perm.share && pt[k].perm.w
      && (forall j :: j in s.pt && j != k && Settled(s.th, j) ==> pt[j].frame != pt[k].frame)
  {
  }

  /** `th` with the handler of k's environment at `stage` of a fault on k. */
  function HandlingAt(th: map<nat, Thread>, k: Va, stage: Stage): map<nat, Thread> {
    if k.env in th then th[k.env := Thread(th[k.env].maker, th[k.env].fork, Handling(k.pn, stage))] else th
  }

  lemma FaultEnters(s: State, k: Va)
    requires Running(s.th, k.env) && k.pn != PFTEMP && CowAt(s.pt, k)
    ensures Enabled(s, TakeFault(k)) && Next(s, TakeFault(k)) == State(s.pt, s.mem, HandlingAt(s.th, k, Entered))
  {
  }

  lemma HandlerAllocates(pt: map<Va, Pte>, mem: map<nat, Page>, th: map<nat, Thread>, k: Va, f: nat)
    requires k.env in th && k.pn != PFTEMP && k in pt && Unused(pt, f) && th[k.env].fault == NoFault
    ensures var t := Va(k.env, PFTEMP);
      var s1 := State(pt, mem, HandlingAt(th, k, Entered));
      var s2 := State(pt[t := Pte(f, RW)], mem[f := ZEROS], HandlingAt(th, k, Allocated));
      Enabled(s1, HandlerAlloc(k.env, f)) && Next(s1, HandlerAlloc(k.env, f)) == s2
  {
  }

  lemma HandlerCopies(pt: map<Va, Pte>, mem: map<nat, Page>, th: map<nat, Thread>, k: Va, f: nat)
    requires k.env in th && k.pn != PFTEMP && k in pt && Va(k.env, PFTEMP) in pt && pt[Va(k.env, PFTEMP)].frame == f
    requires th[k.env].fault == NoFault
    ensures
      var s2 := State(pt, mem, HandlingAt(th, k, Allocated));
      var s3 := State(pt, mem[f := PageIn(mem, pt[k].frame)], HandlingAt(th, k, Copied));
      Enabled(s2, HandlerCopy(k.env)) && Next(s2, HandlerCopy(k.env)) == s3
  {
  }

  lemma HandlerMaps(pt: map<Va, Pte>, mem: map<nat, Page>, th: map<nat, Thread>, k: Va, f: nat)
    requires k.env in th && k.pn != PFTEMP && k in pt && Va(k.env, PFTEMP) in pt && pt[Va(k.env, PFTEMP)].frame == f
    requires th[k.env].fault == NoFault
    ensures
      var s3 := State(pt, mem, HandlingAt(th, k, Copied));
      var s4 := State(pt[k := Pte(f, RW)], mem, HandlingAt(th, k, Remapped));
      Enabled(s3, HandlerMap(k.env)) && Next(s3, HandlerMap(k.env)) == s4
  {
  }

  lemma HandlerLeaves(pt: map<Va, Pte>, mem: map<nat, Page>, th: map<nat, Thread>, k: Va)
    requires k.env in th && th[k.env].fault == NoFault
    ensures
      var s4 := State(pt, mem, HandlingAt(th, k, Remapped));
      Enabled(s4, HandlerUnmap(k.env)) && Next(s4, HandlerUnmap(k.env)) == State(pt - {Va(k.env, PFTEMP)}, mem, th)
  {
  }

  /** No step takes a runnable environment's runnability away. */
  lemma MakerStays(s: State, a: Action, e: nat)
    requires Enabled(s, a) && e in s.th && s.th[e].maker == None
    ensures e in Next(s, a).th && Next(s, a).th[e].maker == None
  {
  }

  /** The owner of k neither reallocates nor unmaps it. */
  ghost predicate Undisturbed(acts: seq<Action>, k: Va) {
    forall i :: 0 <= i < |acts| && (acts[i].PageAlloc? || acts[i].PageUnmap?) ==> !OwnAction(acts[i], k)
  }

  lemma SteadyStep(s: State, a: Action, k: Va)
    requires Inv(s) && Enabled(s, a) && Steady(s.pt, k) && k.pn != PFTEMP && k.env in s.th && s.th[k.env].maker == None
    requires a.PageAlloc? || a.PageUnmap? ==> !OwnAction(a, k)
    ensures Inv(Next(s, a)) && Steady(Next(s, a).pt, k) && Next(s, a).pt[k] == s.pt[k]
    ensures k.env in Next(s, a).th && Next(s, a).th[k.env].maker == None
  {
    hide InvBy, Enabled, Next, Steady, OwnAction;
    StepKeeps(s, a);
    MakerStays(s, a, k.env);
    var kind :| InvBy(s, kind);
    SteadyKept(s, kind, a, k);
  }

  /** Through any such run a steady shared page keeps its entry. */
  lemma {:induction false} SteadyRuns(states: seq<State>, acts: seq<Action>, k: Va, i: nat)
    requires Run(states, acts) && i <= |acts| && Inv(states[0]) && Undisturbed(acts, k) && Steady(states[0].pt, k)
    requires k.pn != PFTEMP && k.env in states[0].th && states[0].th[k.env].maker == None
    ensures Inv(states[i]) && Steady(states[i].pt, k) && states[i].pt[k] == states[0].pt[k]
    ensures k.env in states[i].th && states[i].th[k.env].maker == None
  {
    hide Inv, Enabled, Next, OwnAction;
    if i > 0 {
      SteadyRuns(states, acts, k, i - 1);
      SteadyStep(states[i - 1], acts[i - 1], k);
    }
  }

  lemma SomeFrameUnused(pt: map<Va, Pte>) returns (f: nat)
    ensures Unused(pt, f)
  {
    var frames := set k | k in pt :: pt[k].frame;
    f := Above(frames);
    forall k | k in pt ensures pt[k].frame != f {
      assert pt[k].frame in frames;
    }
  }

  lemma {:induction false} Above(frames: set<nat>) returns (f: nat)
    ensures forall g :: g in frames ==> g < f
  {
    f := 0;
    if frames != {} {
      var g :| g in frames;
      var h := Above(frames - {g});
      f := if g < h then h else g + 1;
      assert frames == frames - {g} + {g};
    }
  }

  /** Some run, in which the owner of k does not reallocate or unmap it, moves k to another frame. */
  ghost predicate Movable(s: State, k: Va) {
    exists states, acts :: MovedBy(states, acts, s, k)
  }

  ghost predicate MovedBy(states: seq<State>, acts: seq<Action>, s: State, k: Va) {
    && Run(states, acts) && states[0] == s && Undisturbed(acts, k)
    && k in s.pt && k in states[|acts|].pt && states[|acts|].pt[k].frame != s.pt[k].frame
  }

  lemma FourSteps(s0: State, s1: State, s2: State, s3: State, s4: State, a0: Action, a1: Action, a2: Action, a3: Action)
    requires Enabled(s0, a0) && Next(s0, a0) == s1 && Enabled(s1, a1) && Next(s1, a1) == s2
    requires Enabled(s2, a2) && Next(s2, a2) == s3 && Enabled(s3, a3) && Next(s3, a3) == s4
    ensures Run([s0, s1, s2, s3, s4], [a0, a1, a2, a3])
  {
    hide Enabled, Next;
  }

  /** The four steps of a fault on k up to the remapping. */
  lemma FaultRun(s: State, k: Va, f: nat) returns (states: seq<State>, acts: seq<Action>)
    requires k in s.pt && Running(s.th, k.env) && k.pn != PFTEMP && CowAt(s.pt, k) && Unused(s.pt, f)
    ensures MovedBy(states, acts, s, k) && |states| == 5 && |acts| == 4
    ensures states[4].th == HandlingAt(s.th, k, Remapped) && k in states[4].pt && states[4].pt[k] == Pte(f, RW)
  {
    hide Run, Enabled, Next, HandlingAt, Unused, PageIn, CowAt;
    FrameIsNot(s.pt, k, f);
    FaultEnters(s, k);
    var th, t := s.th, Va(k.env, PFTEMP);
    HandlerAllocates(s.pt, s.mem, th, k, f);
    var s1 := State(s.pt, s.mem, HandlingAt(th, k, Entered));
    var s2 := State(s.pt[t := Pte(f, RW)], s.mem[f := ZEROS], HandlingAt(th, k, Allocated));
    HandlerCopies(s2.pt, s2.mem, th, k, f);
    var s3 := State(s2.pt, s2.mem[f := PageIn(s2.mem, s2.pt[k].frame)], HandlingAt(th, k, Copied));
    HandlerMaps(s3.pt, s3.mem, th, k, f);
    var s4 := State(s3.pt[k := Pte(f, RW)], s3.mem, HandlingAt(th, k, Remapped));
    acts := [TakeFault(k), HandlerAlloc(k.env, f), HandlerCopy(k.env), HandlerMap(k.env)];
    states := [s, s1, s2, s3, s4];
    FourSteps(s, s1, s2, s3, s4, TakeFault(k), HandlerAlloc(k.env, f), HandlerCopy(k.env), HandlerMap(k.env));
  }

  /**
   A PTE_SHARE page can be moved to another frame without its owner's asking if and only if
   it is read-only and PTE_COW.
   */
  lemma SharedMovesIff(s: State, k: Va)
    requires Inv(s) && k in s.pt && s.pt[k].perm.share && k.pn != PFTEMP && Running(s.th, k.env)
    ensures Movable(s, k) <==> !s.pt[k].perm.w && s.pt[k].perm.cow
  {
    if !s.pt[k].perm.w && s.pt[k].perm.cow {
      var f := SomeFrameUnused(s.pt);
      var states, acts := FaultRun(s, k, f);
    } else if Movable(s, k) {
      var states, acts :| MovedBy(states, acts, s, k);
      SteadyRuns(states, acts, k, |acts|);
    }
  }

  /** In every interleaving the next step of duppage is enabled: no permission check stops it. */
  lemma DuppageNeverStuck(s: State, e: nat)
    requires Inv(s) && InPhase(s.th, e)
    ensures match s.th[e].fork.phase
      case Look => Enabled(s, LookAt(e))
      case Chosen(_, _) => Enabled(s, MapChild(e))
      case Mapped(_, _) => Enabled(s, MapSelf(e))
  {
    hide Kinds, Threads, Forks, Handlers;
    var kind :| InvBy(s, kind);
    DupAt(s, e);
  }

  // ------------------------------------------------------ fork as a program

  /** A sent page stays as it is if shared; else nobody may write it, and PTE_COW tells whether anybody might. */
  predicate SentAs(x: Pte, y: Pte) {
    && y.frame == x.frame && y.perm.share == x.perm.share
    && y.perm.w == (x.perm.w && x.perm.share)
    && y.perm.cow == (x.perm.cow || (x.perm.w && !x.perm.share))
  }

  /** `pt1` is `pt` after `e` has sent its first `n` pages to the child `c`. */
  ghost predicate Sent(pt: map<Va, Pte>, pt1: map<Va, Pte>, e: nat, c: nat, n: nat) {
    && (forall k: Va :: k.env == c ==> (k in pt1 <==> k.pn < n && Va(e, k.pn) in pt))
    && (forall k: Va :: k.env == c && k in pt1 && Va(e, k.pn) in pt ==> SentAs(pt[Va(e, k.pn)], pt1[k]))
    && (forall k: Va :: k.env != c ==> (k in pt1 <==> k in pt))
    && (forall k: Va :: k.env != c && k in pt && k in pt1 ==>
          if k.env == e && k.pn < n then SentAs(pt[k], pt1[k]) else pt1[k] == pt[k])
  }

  lemma StepKeeps(s: State, a: Action)
    requires Inv(s) && Enabled(s, a)
    ensures Inv(Next(s, a))
  {
    ImageShows(s);
    StepRefines(s, a, ImageOf(s));
  }

  lemma RunExtends(states: seq<State>, acts: seq<Action>, a: Action)
    requires Run(states, acts) && Enabled(states[|acts|], a)
    ensures |states| == |acts| + 1 && Run(states + [Next(states[|acts|], a)], acts + [a])
  {
  }

  /** `pt1` is `pt` after duppage of page n, or pt itself if the page is not mapped. */
  ghost predicate DupedAt(pt: map<Va, Pte>, pt1: map<Va, Pte>, e: nat, c: nat, n: nat) {
    if Va(e, n) !in pt then pt1 == pt
    else
      && pt1.Keys == pt.Keys + {Va(c, n)}
      && SentAs(pt[Va(e, n)], pt1[Va(e, n)]) && SentAs(pt[Va(e, n)], pt1[Va(c, n)])
      && (forall k :: k in pt && k != Va(e, n) && k != Va(c, n) ==> pt1[k] == pt[k])
  }

  lemma DupedBy(pt: map<Va, Pte>, e: nat, c: nat, n: nat)
    requires e != c
    ensures Va(e, n) !in pt ==> DupedAt(pt, pt, e, c, n)
    ensures Va(e, n) in pt ==>
      var x := pt[Va(e, n)];
      var y := Pte(x.frame, DupPerm(x.perm));
      && DupedAt(pt, pt[Va(c, n) := y][Va(e, n) := y], e, c, n)
      && (!Remaps(x.perm) ==> DupedAt(pt, pt[Va(c, n) := y], e, c, n)) && (y.perm.w ==> x.perm.w)
  {
  }

  lemma SentMore(pt: map<Va, Pte>, pt1: map<Va, Pte>, pt2: map<Va, Pte>, e: nat, c: nat, n: nat)
    requires Sent(pt, pt1, e, c, n) && DupedAt(pt1, pt2, e, c, n) && e != c
    ensures Sent(pt, pt2, e, c, n + 1)
  {
  }

  /** The child's exception stack lies past the pages that are sent. */
  lemma StackApart(pt: map<Va, Pte>, pt1: map<Va, Pte>, e: nat, c: nat, x: Pte)
    requires Sent(pt, pt1, e, c, LIMIT)
    ensures pt1[Va(c, XSTACK) := x] - {Va(c, XSTACK)} == pt1
  {
  }

  lemma NothingSent(s: State, e: nat, c: nat)
    requires Inv(s) && c !in s.th
    ensures Sent(s.pt, s.pt, e, c, 0)
  {
  }

  lemma SentUnused(pt: map<Va, Pte>, pt1: map<Va, Pte>, e: nat, c: nat, n: nat, f: nat)
    requires Sent(pt, pt1, e, c, n) && Unused(pt, f)
    ensures Unused(pt1, f)
  {
  }

  /** Thread `e` is in fork, about to look at page pn. */
  predicate LooksAt(th: map<nat, Thread>, e: nat, c: nat, pn: nat) {
    Running(th, e) && th[e].fork == At(c, pn, Look)
  }

  lemma FrameIsNot(pt: map<Va, Pte>, k: Va, f: nat)
    requires Unused(pt, f) && k in pt
    ensures pt[k].frame != f
  {
  }

  lemma TempIsFree(s: State, e: nat)
    requires Inv(s) && Running(s.th, e)
    ensures Va(e, PFTEMP) !in s.pt
  {
  }

  lemma LookSteps(s: State, e: nat, c: nat, pn: nat)
    requires LooksAt(s.th, e, c, pn) && pn < LIMIT
    ensures Enabled(s, LookAt(e))
    ensures Next(s, LookAt(e)) == State(s.pt, s.mem, GoFork(s.th, e, AfterLook(s.pt, Va(e, pn), c)))
  {
  }

  lemma ChildSteps(s: State, e: nat, c: nat, pn: nat, perm: Perm, remap: bool)
    requires Running(s.th, e) && s.th[e].fork == At(c, pn, Chosen(perm, remap)) && pn < LIMIT
    requires Va(e, pn) in s.pt && (perm.w ==> s.pt[Va(e, pn)].perm.w)
    ensures Enabled(s, MapChild(e))
    ensures var x := s.pt[Va(e, pn)];
      Next(s, MapChild(e)) == State(s.pt[Va(c, pn) := Pte(x.frame, perm)], s.mem,
                                    GoFork(s.th, e, AfterChild(x.perm, Va(e, pn), c, perm, remap)))
  {
  }

  lemma SelfSteps(s: State, e: nat, c: nat, pn: nat, perm: Perm, pending: bool)
    requires Running(s.th, e) && s.th[e].fork == At(c, pn, Mapped(perm, pending)) && pn < LIMIT
    requires Va(e, pn) in s.pt && (perm.w ==> s.pt[Va(e, pn)].perm.w)
    ensures Enabled(s, MapSelf(e))
    ensures Next(s, MapSelf(e)) == State(s.pt[Va(e, pn) := Pte(s.pt[Va(e, pn)].frame, perm)], s.mem,
                                         GoFork(s.th, e, At(c, pn + 1, Look)))
  {
  }

  /** The library code of one environment running without interruption; `states` is the run so far. */
  class Library {
    var s: State
    ghost const start: State
    ghost var states: seq<State>
    ghost var acts: seq<Action>

    ghost predicate Traced()
      reads this
    {
      Run(states, acts) && start == states[0] && s == states[|acts|] && Inv(s)
    }

    constructor (s0: State)
      requires Inv(s0)
      ensures Traced() && s == start == s0 && acts == []
    {
      s, start, states, acts := s0, s0, [s0], [];
    }

    /** One system call or one memory access. */
    method Do(a: Action)
      requires Traced() && Enabled(s, a)
      modifies this
      ensures Traced() && s == Next(old(s), a) && acts == old(acts) + [a] && states == old(states) + [s]
    {
      hide Inv, Enabled, Next, Run;
      StepKeeps(s, a);
      RunExtends(states, acts, a);
      s, acts, states := Next(s, a), acts + [a], states + [Next(s, a)];
    }

    /** pgfault, from the faulting write up to its return. */
    method Pgfault(k: Va, f: nat)
      requires Traced() && Running(s.th, k.env) && k.pn != PFTEMP && Unused(s.pt, f)
      requires k in s.pt && !s.pt[k].perm.w && s.pt[k].perm.cow
      modifies this
      ensures Traced() && s.pt == old(s.pt)[k := Pte(f, RW)] && s.th == old(s.th)
      ensures s.mem == old(s.mem)[f := old(Content(s, k))]
    {
      hide Inv, Run, Enabled, Next, HandlingAt, Unused;
      ghost var t, pt, mem, th, c := Va(k.env, PFTEMP), s.pt, s.mem, s.th, Content(s, k);
      TempIsFree(s, k.env);
      FrameIsNot(s.pt, k, f);
      FaultEnters(s, k);
      Do(TakeFault(k));
      HandlerAllocates(pt, mem, th, k, f);
      Do(HandlerAlloc(k.env, f));
      HandlerCopies(s.pt, s.mem, th, k, f);
      Do(HandlerCopy(k.env));
      HandlerMaps(s.pt, s.mem, th, k, f);
      Do(HandlerMap(k.env));
      HandlerLeaves(s.pt, s.mem, th, k);
      Do(HandlerUnmap(k.env));
      assert s.pt == pt[k := Pte(f, RW)];
    }

    /** The body of fork's loop: the uvpt test and duppage. */
    method Duppage(e: nat, c: nat, pn: nat)
      requires Traced() && LooksAt(s.th, e, c, pn) && pn < LIMIT && e != c
      modifies this
      ensures Traced() && LooksAt(s.th, e, c, pn + 1) && s.mem == old(s.mem)
      ensures DupedAt(old(s.pt), s.pt, e, c, pn) && s.th == old(s.th)[e := s.th[e]]
    {
      hide Inv, Run, DupedAt, DupPerm, Remaps, Enabled, Next;
      DupedBy(s.pt, e, c, pn);
      LookSteps(s, e, c, pn);
      Do(LookAt(e));
      if Va(e, pn) in s.pt {
        ChildSteps(s, e, c, pn, s.th[e].fork.phase.perm, s.th[e].fork.phase.remap);
        Do(MapChild(e));
        if s.th[e].fork.phase.Mapped? {
          SelfSteps(s, e, c, pn, s.th[e].fork.phase.perm, s.th[e].fork.phase.pending);
          Do(MapSelf(e));
        }
      }
    }

    /** fork on the parent's side: no permission error can stop it, and the child gets every page. */
    method Fork(e: nat, c: nat, f: nat)
      requires Traced() && AtLeisure(s.th, e) && c !in s.th && Unused(s.pt, f)
      modifies this
      ensures Traced() && AtLeisure(s.th, e) && AtLeisure(s.th, c)
      ensures Va(c, XSTACK) in s.pt && s.pt[Va(c, XSTACK)] == Pte(f, RW)
      ensures Sent(old(s.pt), s.pt - {Va(c, XSTACK)}, e, c, LIMIT)
      ensures s.mem == old(s.mem)[f := ZEROS]
    {
      hide Inv, Run, Sent, DupedAt;
      NothingSent(s, e, c);
      Do(Exofork(e, c));
      var pn := 0;
      while pn < LIMIT
        invariant pn <= LIMIT && Traced() && LooksAt(s.th, e, c, pn)
        invariant c in s.th && s.th[c] == Thread(Some(e), NoFork, NoFault)
        invariant Sent(old(s.pt), s.pt, e, c, pn) && s.mem == old(s.mem)
      {
        ghost var pt1 := s.pt;
        Duppage(e, c, pn);
        SentMore(old(s.pt), pt1, s.pt, e, c, pn);
        pn := pn + 1;
      }
      SentUnused(old(s.pt), s.pt, e, c, LIMIT, f);
      StackApart(old(s.pt), s.pt, e, c, Pte(f, RW));
      Do(ChildStack(e, f));
      Do(SetRunnable(e));
    }
  }

  /** The first page of a fresh system, shared, read-only and copy-on-write. */
  lemma FirstPage(s: State)
    requires Boot(s, 0)
    ensures var a := PageAlloc(Va(0, 0), 0, Perm(false, true, true));
      && Enabled(s, a) && Next(s, a).pt == map[Va(0, 0) := Pte(0, Perm(false, true, true))]
      && AtLeisure(Next(s, a).th, 0) && 1 !in Next(s, a).th && Unused(Next(s, a).pt, 1)
  {
  }

  lemma FirstPageSent(pt: map<Va, Pte>, pt1: map<Va, Pte>, s: State)
    requires pt == map[Va(0, 0) := Pte(0, Perm(false, true, true))] && Sent(pt, pt1 - {Va(1, XSTACK)}, 0, 1, LIMIT)
    requires s.pt == pt1 && AtLeisure(s.th, 0)
    ensures Va(0, 0) in pt1 && Va(1, 0) in pt1 && pt1[Va(0, 0)] == pt1[Va(1, 0)] && pt1[Va(0, 0)].perm.share
    ensures Enabled(s, TakeFault(Va(0, 0)))
  {
    assert Va(0, 0) in pt1 - {Va(1, XSTACK)} && Va(1, 0) in pt1 - {Va(1, XSTACK)};
  }

  /** A run from boot reaches two environments that hold one PTE_SHARE page which a write of the first would split. */
  method ShareCowReached() returns (l: Library, k1: Va, k2: Va)
    ensures fresh(l) && l.Traced() && Boot(l.start, 0)
    ensures k1 in l.s.pt && k2 in l.s.pt && k1.env != k2.env && l.s.pt[k1] == l.s.pt[k2] && l.s.pt[k1].perm.share
    ensures Enabled(l.s, TakeFault(k1))
  {
    hide Inv, Run, Sent, Next, Enabled, AtLeisure, Unused;
    var s := State(map[], map[], map[0 := Thread(None, NoFork, NoFault)]);
    BootInv(s, 0);
    FirstPage(s);
    k1, k2 := Va(0, 0), Va(1, 0);
    l := new Library(s);
    l.Do(PageAlloc(k1, 0, Perm(false, true, true)));
    ghost var pt := l.s.pt;
    l.Fork(0, 1, 1);
    FirstPageSent(pt, l.s.pt, l.s);
  }
}
