/**
 How a pipe finds out that its other end is closed (lib/pipe.c, lib/fd.c): it
 compares the reference count of its own descriptor page with that of the pipe page,
 while other environments duplicate, close and fork one system call at a time.  There is
 one processor.
 */
module PipeClosed {
  import opened Common

  const MAXFD: nat := 32
  const FDTABLE: nat := 0xD0000000
  const FILEDATA: nat := FDTABLE + MAXFD * PGSIZE

  // ----------------------------------------------------- descriptor addresses

  function Index2Fd(i: nat): nat {
    FDTABLE + i * PGSIZE
  }

  function Fd2Num(fd: nat): nat
    requires FDTABLE <= fd
  {
    (fd - FDTABLE) / PGSIZE
  }

  function Fd2Data(fd: nat): nat
    requires FDTABLE <= fd
  {
    FILEDATA + Fd2Num(fd) * PGSIZE
  }

  /**
   Descriptor and data pages of valid descriptors never meet; an invalid number's page is
   some descriptor's data page.
   */
  lemma DescriptorPages(i: nat, j: nat)
    ensures Fd2Num(Index2Fd(i)) == i
    ensures Fd2Data(Index2Fd(i)) == Fd2Data(Index2Fd(j)) <==> i == j
    ensures i < MAXFD ==> Index2Fd(i) != Fd2Data(Index2Fd(j))
    ensures Index2Fd(MAXFD + j) == Fd2Data(Index2Fd(j))
  {
  }

  // ------------------------------------------------------------------- states

  datatype Slot = Slot(env: nat, i: nat)

  datatype End = Rd | Wr

  /** What close returns to: its caller, or dup. */
  datatype Then = Done | ThenDup(src: nat)

  /**
   Where an environment is inside close, dup, fork or _pipeisclosed.  Fork maps the pages of
   the child in ascending order, so all descriptor pages before all data pages.  An answer
   also records whether every descriptor had its data page at that time.
   */
  datatype Pc =
    | Idle
    | UnmapFd(i: nat, back: Then)
    | UnmapData(i: nat, back: Then)
    | UnmapFdAgain(i: nat, back: Then)
    | MapData(src: nat, dst: nat)
    | MapFd(src: nat, dst: nat)
    | UndoFd(dst: nat)
    | UndoData(dst: nat)
    | ForkFd(child: nat, i: nat)
    | ForkData(child: nat, i: nat)
    | ReadRuns(i: nat)
    | ReadFdRef(i: nat, n: nat)
    | ReadPipeRef(i: nat, n: nat, fdref: nat)
    | CheckRuns(i: nat, n: nat, ret: bool)
    | Answered(i: nat, closed: bool, backed: bool)

  /**
   `fd`: slots whose descriptor page is the pipe's read or write descriptor;
   `data`: slots whose data page is the pipe; `pc` has the environments that can run;
   `runs`: env_runs; `cur`: curenv; `used`: all environments there have been.
   */
  datatype State = State(fd: map<Slot, End>, data: set<Slot>, pc: map<nat, Pc>, runs: map<nat, nat>, cur: nat,
                         used: set<nat>)

  datatype Action =
    | StartClose(i: nat)
    | StartDup(src: nat, dst: nat)
    | StartProbe(i: nat)
    | Step(ok: bool)
    | StartFork(child: nat)
    | Destroy(env: nat)
    | Switch(env: nat)

  /** The slots that hold one end: the reference count of that end's descriptor page. */
  function Ends(fd: map<Slot, End>, e: End): set<Slot> {
    set s | s in fd && fd[s] == e
  }

  function Other(e: End): End {
    if e == Rd then Wr else Rd
  }

  predicate Enabled(s: State, a: Action) {
    match a
    case Switch(e) => e in s.pc && e in s.runs && e != s.cur
    case Destroy(e) => e in s.pc && (e == s.cur || (s.cur in s.pc && s.pc[s.cur] == Idle))
    case Step(ok) => s.cur in s.pc && s.cur in s.runs && s.pc[s.cur] != Idle
    case StartFork(c) => s.cur in s.pc && s.pc[s.cur] == Idle && c !in s.used
    case StartClose(i) => s.cur in s.pc && s.pc[s.cur] == Idle && i < MAXFD
    case StartDup(src, dst) =>
      s.cur in s.pc && s.pc[s.cur] == Idle && src < MAXFD && dst < MAXFD && Slot(s.cur, src) in s.fd
    case StartProbe(i) => s.cur in s.pc && s.pc[s.cur] == Idle && i < MAXFD && Slot(s.cur, i) in s.fd
  }

  function Go(s: State, pc: Pc): State {
    s.(pc := s.pc[s.cur := pc])
  }

  function Unmapped(s: State, i: nat): State {
    s.(fd := s.fd - {Slot(s.cur, i)})
  }

  function DataUnmapped(s: State, i: nat): State {
    s.(data := s.data - {Slot(s.cur, i)})
  }

  /** The child is runnable. */
  function Born(s: State, c: nat): State {
    s.(pc := s.pc[s.cur := Idle][c := Idle], runs := s.runs[c := 0])
  }

  /** env_free unmaps everything the environment had. */
  function Without(fd: map<Slot, End>, e: nat): map<Slot, End> {
    map k | k in fd && k.env != e :: fd[k]
  }

  function DataWithout(data: set<Slot>, e: nat): set<Slot> {
    set k | k in data && k.env != e
  }

  /** The next system call or load of the current environment; `ok` says whether a sys_page_map succeeds. */
  function Advance(s: State, ok: bool): State
    requires s.cur in s.pc && s.cur in s.runs
  {
    match s.pc[s.cur]
    case Idle => s
    case UnmapFd(i, t) => Go(Unmapped(s, i), UnmapData(i, t))
    case UnmapData(i, t) => Go(DataUnmapped(s, i), UnmapFdAgain(i, t))
    case UnmapFdAgain(i, t) => Go(Unmapped(s, i), if t == Done then Idle else MapData(t.src, i))
    case MapData(o, n) =>
      if Slot(s.cur, o) !in s.data then Go(s, MapFd(o, n))
      else if ok then Go(s.(data := s.data + {Slot(s.cur, n)}), MapFd(o, n))
      else Go(s, UndoFd(n))
    case MapFd(o, n) =>
      if Slot(s.cur, o) in s.fd && ok then Go(s.(fd := s.fd[Slot(s.cur, n) := s.fd[Slot(s.cur, o)]]), Idle)
      else Go(s, UndoFd(n))
    case UndoFd(n) => Go(Unmapped(s, n), UndoData(n))
    case UndoData(n) => Go(DataUnmapped(s, n), Idle)
    case ForkFd(c, i) =>
      if i == MAXFD then Go(s, ForkData(c, 0))
      else if Slot(s.cur, i) !in s.fd then Go(s, ForkFd(c, i + 1))
      else Go(s.(fd := s.fd[Slot(c, i) := s.fd[Slot(s.cur, i)]]), ForkFd(c, i + 1))
    case ForkData(c, i) =>
      if i == MAXFD then Born(s, c)
      else if Slot(s.cur, i) !in s.data then Go(s, ForkData(c, i + 1))
      else Go(s.(data := s.data + {Slot(c, i)}), ForkData(c, i + 1))
    case ReadRuns(i) => Go(s, ReadFdRef(i, s.runs[s.cur]))
    case ReadFdRef(i, n) =>
      Go(s, ReadPipeRef(i, n, if Slot(s.cur, i) in s.fd then |Ends(s.fd, s.fd[Slot(s.cur, i)])| else 0))
    case ReadPipeRef(i, n, r) => Go(s, CheckRuns(i, n, r == |s.data|))
    case CheckRuns(i, n, ret) =>
      Go(s, if s.runs[s.cur] == n then Answered(i, ret, Backed(s.fd, s.data)) else ReadRuns(i))
    case Answered(_, _, _) => Go(s, Idle)
  }

  function Next(s: State, a: Action): State
    requires Enabled(s, a)
  {
    match a
    case Switch(e) => s.(cur := e, runs := s.runs[e := s.runs[e] + 1])
    case Destroy(e) =>
      State(Without(s.fd, e), DataWithout(s.data, e), s.pc - {e}, s.runs - {e}, s.cur, s.used)
    case Step(ok) => Advance(s, ok)
    case StartFork(c) => Go(s.(used := s.used + {c}), ForkFd(c, 0))
    case StartClose(i) => if Slot(s.cur, i) in s.fd then Go(s, UnmapFd(i, Done)) else s
    case StartDup(o, n) => Go(s, if Slot(s.cur, n) in s.fd then UnmapFd(n, ThenDup(o)) else MapData(o, n))
    case StartProbe(i) => Go(s, ReadRuns(i))
  }

  // ---------------------------------------------------------------- invariant

  /** Slots of `e` whose data page may be mapped without its descriptor page. */
  predicate Busy(pc: Pc, i: nat) {
    match pc
    case UnmapData(j, _) => i == j
    case MapFd(_, j) => i == j
    case UndoFd(j) => i == j
    case UndoData(j) => i == j
    case _ => false
  }

  /** Every slot number in the middle of an operation is a descriptor number. */
  predicate InRange(pc: Pc) {
    match pc
    case Idle => true
    case UnmapFd(i, t) => i < MAXFD && (t.ThenDup? ==> t.src < MAXFD)
    case UnmapData(i, t) => i < MAXFD && (t.ThenDup? ==> t.src < MAXFD)
    case UnmapFdAgain(i, t) => i < MAXFD && (t.ThenDup? ==> t.src < MAXFD)
    case MapData(o, n) => o < MAXFD && n < MAXFD
    case MapFd(o, n) => o < MAXFD && n < MAXFD
    case UndoFd(n) => n < MAXFD
    case UndoData(n) => n < MAXFD
    case ForkFd(_, i) => i <= MAXFD
    case ForkData(_, i) => i <= MAXFD
    case ReadRuns(i) => i < MAXFD
    case ReadFdRef(i, _) => i < MAXFD
    case ReadPipeRef(i, _, _) => i < MAXFD
    case CheckRuns(i, _, _) => i < MAXFD
    case Answered(i, _, _) => i < MAXFD
  }

  /** No descriptor of the other end of e is open anywhere. */
  ghost predicate Gone(fd: map<Slot, End>, e: End) {
    forall k :: k in fd ==> fd[k] != e
  }

  /** Every open descriptor has its data page. */
  predicate Backed(fd: map<Slot, End>, data: set<Slot>) {
    forall k :: k in fd ==> k in data
  }

  /** Every open descriptor of an environment that can run has. */
  ghost predicate LiveBacked(fd: map<Slot, End>, data: set<Slot>, pc: map<nat, Pc>, used: set<nat>) {
    forall k :: k in fd ==> k.env in used && k.i < MAXFD && (k.env in pc ==> k in data)
  }

  ghost predicate Placed(data: set<Slot>, fd: map<Slot, End>, pc: map<nat, Pc>, used: set<nat>) {
    forall k :: k in data ==> k.env in used && k.i < MAXFD && (k in fd || (k.env in pc && Busy(pc[k.env], k.i)))
  }

  predicate Forking(pc: Pc) {
    pc.ForkFd? || pc.ForkData?
  }

  /** A child in the making cannot run yet, and has one parent. */
  ghost predicate Nursery(pc: map<nat, Pc>, used: set<nat>) {
    && pc.Keys <= used
    && (forall e :: e in pc && Forking(pc[e]) ==> pc[e].child !in pc && pc[e].child in used)
    && (forall d, e :: d in pc && e in pc && d != e && Forking(pc[d]) && Forking(pc[e]) ==> pc[d].child != pc[e].child)
  }

  /** The first i descriptor pages and the first j data pages of e are in c as well. */
  ghost predicate Shared(fd: map<Slot, End>, data: set<Slot>, e: nat, c: nat, i: nat, j: nat) {
    && (forall k: Slot :: k.env == c ==> (k in fd <==> k.i < i && Slot(e, k.i) in fd))
    && (forall k: Slot :: k.env == c && k in fd && Slot(e, k.i) in fd ==> fd[k] == fd[Slot(e, k.i)])
    && (forall k: Slot :: k.env == c ==> (k in data <==> k.i < j && Slot(e, k.i) in data))
  }

  /** What environment e knows about its own slots in the middle of close and dup. */
  ghost predicate Sensible(fd: map<Slot, End>, data: set<Slot>, e: nat, pc: Pc) {
    && InRange(pc)
    && match pc
       case UnmapData(i, _) => Slot(e, i) !in fd
       case UnmapFdAgain(i, _) => Slot(e, i) !in fd
       case MapData(_, n) => Slot(e, n) !in fd
       case MapFd(o, n) => Slot(e, o) in fd ==> Slot(e, n) in data
       case UndoData(n) => Slot(e, n) !in fd
       case ForkFd(c, i) => c != e && Shared(fd, data, e, c, i, 0)
       case ForkData(c, i) => c != e && Shared(fd, data, e, c, MAXFD, i)
       case ReadRuns(i) => Slot(e, i) in fd
       case ReadFdRef(i, _) => Slot(e, i) in fd
       case ReadPipeRef(i, _, _) => Slot(e, i) in fd
       case CheckRuns(i, _, _) => Slot(e, i) in fd
       case Answered(i, closed, backed) => Slot(e, i) in fd && (closed && backed ==> Gone(fd, Other(fd[Slot(e, i)])))
       case _ => true
  }

  /** If the environment has run on without a switch since it read env_runs, its counts are of this very state. */
  ghost predicate Snapshot(fd: map<Slot, End>, data: set<Slot>, e: nat, pc: Pc, runs: nat, running: bool) {
    match pc
    case ReadFdRef(i, n) => n <= runs
    case ReadPipeRef(i, n, r) =>
      n <= runs && (running && n == runs && Slot(e, i) in fd ==> r == |Ends(fd, fd[Slot(e, i)])|)
    case CheckRuns(i, n, ret) =>
      n <= runs && (running && n == runs && Slot(e, i) in fd ==> ret == (|Ends(fd, fd[Slot(e, i)])| == |data|))
    case _ => true
  }

  ghost predicate Inv(s: State) {
    && LiveBacked(s.fd, s.data, s.pc, s.used)
    && Placed(s.data, s.fd, s.pc, s.used)
    && s.runs.Keys == s.pc.Keys && Nursery(s.pc, s.used)
    && (forall e :: e in s.pc ==> Sensible(s.fd, s.data, e, s.pc[e]))
    && (forall e :: e in s.pc ==> Snapshot(s.fd, s.data, e, s.pc[e], s.runs[e], e == s.cur))
  }

  // ----------------------------------------------------------------- counting

  /** Descriptor pages without their data page, which only a child in the making has, and data pages on their own. */
  function Unbacked(fd: map<Slot, End>, data: set<Slot>): set<Slot> {
    set k | k in fd && k !in data
  }

  function Extra(fd: map<Slot, End>, data: set<Slot>): set<Slot> {
    set k | k in data && k !in fd
  }

  lemma Sum(a: set<Slot>, b: set<Slot>)
    requires a !! b
    ensures |a + b| == |a| + |b|
  {
  }

  lemma SameSlots(fd: map<Slot, End>, data: set<Slot>)
    ensures Ends(fd, Rd) !! Ends(fd, Wr) && Ends(fd, Rd) + Ends(fd, Wr) == fd.Keys
    ensures data !! Unbacked(fd, data) && fd.Keys !! Extra(fd, data)
    ensures data + Unbacked(fd, data) == fd.Keys + Extra(fd, data)
  {
    forall k | k in fd.Keys ensures k in Ends(fd, Rd) + Ends(fd, Wr) {
    }
  }

  /** pageref(pipe), exactly. */
  lemma RefsAre(fd: map<Slot, End>, data: set<Slot>)
    ensures |data| + |Unbacked(fd, data)| == |Ends(fd, Rd)| + |Ends(fd, Wr)| + |Extra(fd, data)|
  {
    hide Ends, Unbacked, Extra;
    SameSlots(fd, data);
    Sum(Ends(fd, Rd), Ends(fd, Wr));
    Sum(data, Unbacked(fd, data));
    Sum(fd.Keys, Extra(fd, data));
  }

  lemma NoEnds(fd: map<Slot, End>, e: End)
    ensures |Ends(fd, e)| == 0 <==> Gone(fd, e)
  {
    if Gone(fd, e) {
      assert Ends(fd, e) == {};
    } else {
      var k :| k in fd && fd[k] == e;
      assert k in Ends(fd, e);
    }
  }

  /** What the comparison of the two counts tells, whatever the state. */
  lemma CountsIff(fd: map<Slot, End>, data: set<Slot>, e: End)
    ensures |Ends(fd, e)| == |data| <==> |Ends(fd, Other(e))| + |Extra(fd, data)| == |Unbacked(fd, data)|
    ensures Backed(fd, data) && |Ends(fd, e)| == |data| ==> Gone(fd, Other(e))
  {
    RefsAre(fd, data);
    NoEnds(fd, Other(e));
    if Backed(fd, data) {
      assert Unbacked(fd, data) == {};
    }
  }

  // ------------------------------------------------------- every step keeps it

  /** The mappings of env `e` changed; those of the others did not, and no end came back. */
  ghost predicate Local(fd: map<Slot, End>, data: set<Slot>, fd1: map<Slot, End>, data1: set<Slot>, e: nat) {
    && (forall k: Slot :: k.env != e ==> (k in fd1 <==> k in fd) && (k in data1 <==> k in data))
    && (forall k: Slot :: k.env != e && k in fd ==> fd1[k] == fd[k])
    && (forall x :: Gone(fd, x) ==> Gone(fd1, x))
  }

  lemma OthersSensible(fd: map<Slot, End>, data: set<Slot>, fd1: map<Slot, End>, data1: set<Slot>, e: nat, x: nat,
                       pc: Pc)
    requires Local(fd, data, fd1, data1, e) && x != e && Sensible(fd, data, x, pc) && (Forking(pc) ==> pc.child != e)
    ensures Sensible(fd1, data1, x, pc)
  {
    hide Gone;
  }

  lemma OthersSnapshot(fd: map<Slot, End>, data: set<Slot>, fd1: map<Slot, End>, data1: set<Slot>, x: nat, pc: Pc,
                       runs: nat)
    requires Snapshot(fd, data, x, pc, runs, false)
    ensures Snapshot(fd1, data1, x, pc, runs, false)
  {
  }

  /** A step of the running environment that only touches its own slots and its own program counter. */
  lemma LocalKeeps(s: State, fd1: map<Slot, End>, data1: set<Slot>, pc1: Pc)
    requires Inv(s) && s.cur in s.pc && Local(s.fd, s.data, fd1, data1, s.cur)
    requires forall k: Slot :: k.env == s.cur && k in fd1 ==> k in data1
    requires forall k: Slot :: k.env == s.cur && k in data1 ==> k.i < MAXFD && (k in fd1 || Busy(pc1, k.i))
    requires Sensible(fd1, data1, s.cur, pc1) && Snapshot(fd1, data1, s.cur, pc1, s.runs[s.cur], true)
    requires !Forking(pc1) && forall k: Slot :: k.env == s.cur && k in fd1 ==> k.i < MAXFD
    ensures Inv(State(fd1, data1, s.pc[s.cur := pc1], s.runs, s.cur, s.used))
  {
    hide Sensible, Snapshot, Gone;
    var t := State(fd1, data1, s.pc[s.cur := pc1], s.runs, s.cur, s.used);
    forall e | e in t.pc ensures Sensible(t.fd, t.data, e, t.pc[e]) {
      if e != s.cur {
        OthersSensible(s.fd, s.data, fd1, data1, s.cur, e, s.pc[e]);
      }
    }
    forall e | e in t.pc ensures Snapshot(t.fd, t.data, e, t.pc[e], t.runs[e], e == t.cur) {
      if e != s.cur {
        OthersSnapshot(s.fd, s.data, fd1, data1, e, s.pc[e], s.runs[e]);
      }
    }
  }

  lemma LocalSame(fd: map<Slot, End>, data: set<Slot>, e: nat)
    ensures Local(fd, data, fd, data, e)
  {
  }

  lemma LocalUnmap(fd: map<Slot, End>, data: set<Slot>, e: nat, i: nat)
    ensures Local(fd, data, fd - {Slot(e, i)}, data, e) && Local(fd, data, fd, data - {Slot(e, i)}, e)
    ensures Local(fd, data, fd, data + {Slot(e, i)}, e)
  {
  }

  lemma LocalMapFd(fd: map<Slot, End>, data: set<Slot>, e: nat, src: nat, dst: nat)
    requires Slot(e, src) in fd
    ensures Local(fd, data, fd[Slot(e, dst) := fd[Slot(e, src)]], data, e)
  {
  }

  /** What the invariant says of the slots of the running environment. */
  lemma OwnSlots(s: State)
    requires Inv(s) && s.cur in s.pc
    ensures forall k: Slot :: k.env == s.cur && k in s.fd ==> k in s.data && k.i < MAXFD
    ensures forall k: Slot :: k.env == s.cur && k in s.data ==> k.i < MAXFD && (k in s.fd || Busy(s.pc[s.cur], k.i))
    ensures Sensible(s.fd, s.data, s.cur, s.pc[s.cur])
    ensures Snapshot(s.fd, s.data, s.cur, s.pc[s.cur], s.runs[s.cur], true)
  {
  }

  lemma CloseKeeps(s: State, ok: bool)
    requires Inv(s) && Enabled(s, Step(ok))
    requires (s.pc[s.cur].UnmapFd? || s.pc[s.cur].UnmapData? || s.pc[s.cur].UnmapFdAgain?)
    ensures Inv(Advance(s, ok))
  {
    hide Inv, Local, Gone, Ends;
    var t, i := Advance(s, ok), s.pc[s.cur].i;
    OwnSlots(s);
    LocalUnmap(s.fd, s.data, s.cur, i);
    LocalKeeps(s, t.fd, t.data, t.pc[s.cur]);
  }

  lemma MapKeeps(s: State, ok: bool)
    requires Inv(s) && Enabled(s, Step(ok)) && (s.pc[s.cur].MapData? || s.pc[s.cur].MapFd?)
    ensures Inv(Advance(s, ok))
  {
    hide Inv, Local, Gone, Ends;
    var t, o, n := Advance(s, ok), s.pc[s.cur].src, s.pc[s.cur].dst;
    OwnSlots(s);
    LocalSame(s.fd, s.data, s.cur);
    LocalUnmap(s.fd, s.data, s.cur, n);
    if Slot(s.cur, o) in s.fd {
      LocalMapFd(s.fd, s.data, s.cur, o, n);
    }
    LocalKeeps(s, t.fd, t.data, t.pc[s.cur]);
  }

  lemma UndoKeeps(s: State, ok: bool)
    requires Inv(s) && Enabled(s, Step(ok)) && (s.pc[s.cur].UndoFd? || s.pc[s.cur].UndoData?)
    ensures Inv(Advance(s, ok))
  {
    hide Inv, Local, Gone, Ends;
    var t, n := Advance(s, ok), s.pc[s.cur].dst;
    OwnSlots(s);
    LocalUnmap(s.fd, s.data, s.cur, n);
    LocalKeeps(s, t.fd, t.data, t.pc[s.cur]);
  }

  lemma ProbeKeeps(s: State, ok: bool)
    requires Inv(s) && Enabled(s, Step(ok))
    requires var pc := s.pc[s.cur]; pc.ReadRuns? || pc.ReadFdRef? || pc.ReadPipeRef? || pc.CheckRuns? || pc.Answered?
    ensures Inv(Advance(s, ok))
  {
    hide Inv, Local, Gone, Ends, Backed, Unbacked, Extra;
    var t, i := Advance(s, ok), s.pc[s.cur].i;
    OwnSlots(s);
    LocalSame(s.fd, s.data, s.cur);
    if Slot(s.cur, i) in s.fd {
      CountsIff(s.fd, s.data, s.fd[Slot(s.cur, i)]);
    }
    LocalKeeps(s, t.fd, t.data, t.pc[s.cur]);
  }

  lemma StartKeeps(s: State, a: Action)
    requires Inv(s) && Enabled(s, a) && (a.StartClose? || a.StartDup? || a.StartProbe?)
    ensures Inv(Next(s, a))
  {
    hide Inv, Local, Gone, Ends;
    var t := Next(s, a);
    OwnSlots(s);
    LocalSame(s.fd, s.data, s.cur);
    LocalKeeps(s, t.fd, t.data, t.pc[s.cur]);
    assert s.pc[s.cur := s.pc[s.cur]] == s.pc;
  }

  /** After a switch the environment that runs sees a larger env_runs than any it has noted. */
  lemma SwitchKeeps(s: State, e: nat)
    requires Inv(s) && Enabled(s, Switch(e))
    ensures Inv(Next(s, Switch(e)))
  {
  }

  lemma DestroyLocal(fd: map<Slot, End>, data: set<Slot>, e: nat)
    ensures Local(fd, data, Without(fd, e), DataWithout(data, e), e)
    ensures forall k: Slot :: k.env == e ==> k !in Without(fd, e) && k !in DataWithout(data, e)
  {
  }

  lemma DestroySnapshot(s: State, e: nat, x: nat)
    requires Inv(s) && Enabled(s, Destroy(e)) && x in s.pc && x != e
    ensures Snapshot(Without(s.fd, e), DataWithout(s.data, e), x, s.pc[x], s.runs[x], x == s.cur)
  {
    hide Sensible, Gone, Ends;
    assert Snapshot(s.fd, s.data, x, s.pc[x], s.runs[x], x == s.cur);
  }

  lemma DestroyKeeps(s: State, e: nat)
    requires Inv(s) && Enabled(s, Destroy(e))
    ensures Inv(Next(s, Destroy(e)))
  {
    hide Sensible, Snapshot, Gone, Ends, Without, DataWithout;
    var t := Next(s, Destroy(e));
    DestroyLocal(s.fd, s.data, e);
    forall x | x in t.pc ensures Sensible(t.fd, t.data, x, t.pc[x]) {
      OthersSensible(s.fd, s.data, t.fd, t.data, e, x, s.pc[x]);
    }
    forall x | x in t.pc ensures Snapshot(t.fd, t.data, x, t.pc[x], t.runs[x], x == t.cur) {
      DestroySnapshot(s, e, x);
    }
  }

  // ---------------------------------------------------------------------- fork

  /** A name that was never used has no slots. */
  lemma NothingShared(s: State, c: nat)
    requires LiveBacked(s.fd, s.data, s.pc, s.used) && Placed(s.data, s.fd, s.pc, s.used) && c !in s.used
    ensures Shared(s.fd, s.data, s.cur, c, 0, 0)
  {
  }

  lemma ForkSensible(fd: map<Slot, End>, data: set<Slot>, e: nat, c: nat)
    requires Shared(fd, data, e, c, 0, 0) && c != e
    ensures Sensible(fd, data, e, ForkFd(c, 0))
  {
  }

  lemma StartForkKeeps(s: State, c: nat)
    requires Inv(s) && Enabled(s, StartFork(c))
    ensures Inv(Next(s, StartFork(c)))
  {
    hide Gone, Ends, Snapshot, Sensible, Shared;
    NothingShared(s, c);
    ForkSensible(s.fd, s.data, s.cur, c);
    NoCounts(s.fd, s.data, s.cur, ForkFd(c, 0), s.runs[s.cur], true);
  }

  lemma NoCounts(fd: map<Slot, End>, data: set<Slot>, e: nat, pc: Pc, runs: nat, running: bool)
    requires Forking(pc) || pc == Idle
    ensures Snapshot(fd, data, e, pc, runs, running)
  {
  }

  /** One more page is shared. */
  lemma ShareFd(fd: map<Slot, End>, data: set<Slot>, e: nat, c: nat, i: nat)
    requires Shared(fd, data, e, c, i, 0) && e != c
    ensures var fd1 := if Slot(e, i) in fd then fd[Slot(c, i) := fd[Slot(e, i)]] else fd;
      Shared(fd1, data, e, c, i + 1, 0) && Local(fd, data, fd1, data, c)
  {
    hide Gone;
    var fd1 := if Slot(e, i) in fd then fd[Slot(c, i) := fd[Slot(e, i)]] else fd;
    forall x | Gone(fd, x) ensures Gone(fd1, x) {
      CopyGone(fd, e, c, i, x);
    }
  }

  lemma CopyGone(fd: map<Slot, End>, e: nat, c: nat, i: nat, x: End)
    requires Gone(fd, x)
    ensures Slot(e, i) in fd ==> Gone(fd[Slot(c, i) := fd[Slot(e, i)]], x)
  {
  }

  lemma ShareData(fd: map<Slot, End>, data: set<Slot>, e: nat, c: nat, i: nat)
    requires Shared(fd, data, e, c, MAXFD, i) && e != c
    ensures var data1 := if Slot(e, i) in data then data + {Slot(c, i)} else data;
      Shared(fd, data1, e, c, MAXFD, i + 1) && Local(fd, data, fd, data1, c)
  {
    hide Gone;
  }

  /** A step that only touches the slots of a child in the making. */
  lemma NurseryKeeps(s: State, fd1: map<Slot, End>, data1: set<Slot>, pc1: Pc)
    requires Inv(s) && s.cur in s.pc && Forking(s.pc[s.cur]) && Forking(pc1) && pc1.child == s.pc[s.cur].child
    requires Local(s.fd, s.data, fd1, data1, pc1.child) && Sensible(fd1, data1, s.cur, pc1)
    requires forall k: Slot :: k.env == pc1.child && (k in fd1 || k in data1) ==> k.i < MAXFD && k in fd1
    ensures Inv(State(fd1, data1, s.pc[s.cur := pc1], s.runs, s.cur, s.used))
  {
    hide Sensible, Snapshot, Gone;
    var t := State(fd1, data1, s.pc[s.cur := pc1], s.runs, s.cur, s.used);
    forall e | e in t.pc ensures Sensible(t.fd, t.data, e, t.pc[e]) {
      if e != s.cur {
        OthersSensible(s.fd, s.data, fd1, data1, pc1.child, e, s.pc[e]);
      }
    }
    forall e | e in t.pc ensures Snapshot(t.fd, t.data, e, t.pc[e], t.runs[e], e == t.cur) {
      if e == s.cur {
        NoCounts(t.fd, t.data, e, pc1, t.runs[e], true);
      } else {
        OthersSnapshot(s.fd, s.data, fd1, data1, e, s.pc[e], s.runs[e]);
      }
    }
  }

  lemma ForkFdKeeps(s: State, ok: bool)
    requires Inv(s) && Enabled(s, Step(ok)) && s.pc[s.cur].ForkFd?
    ensures Inv(Advance(s, ok))
  {
    hide Inv, Local, Gone, Ends;
    var t, c, i := Advance(s, ok), s.pc[s.cur].child, s.pc[s.cur].i;
    OwnSlots(s);
    if i == MAXFD {
      LocalSame(s.fd, s.data, c);
    } else {
      ShareFd(s.fd, s.data, s.cur, c, i);
    }
    NurseryKeeps(s, t.fd, t.data, t.pc[s.cur]);
  }

  lemma ForkDataKeeps(s: State, ok: bool)
    requires Inv(s) && Enabled(s, Step(ok)) && s.pc[s.cur].ForkData? && s.pc[s.cur].i < MAXFD
    ensures Inv(Advance(s, ok))
  {
    hide Inv, Local, Gone, Ends;
    var t, c, i := Advance(s, ok), s.pc[s.cur].child, s.pc[s.cur].i;
    OwnSlots(s);
    ShareData(s.fd, s.data, s.cur, c, i);
    NurseryKeeps(s, t.fd, t.data, t.pc[s.cur]);
  }

  lemma BornBacked(s: State, c: nat)
    requires LiveBacked(s.fd, s.data, s.pc, s.used) && Placed(s.data, s.fd, s.pc, s.used) && c in s.used && c !in s.pc
    requires s.cur in s.pc && s.pc[s.cur].ForkData? && Shared(s.fd, s.data, s.cur, c, MAXFD, MAXFD)
    ensures var t := Born(s, c); LiveBacked(t.fd, t.data, t.pc, t.used) && Placed(t.data, t.fd, t.pc, t.used)
  {
  }

  lemma BornNursery(s: State, c: nat)
    requires Nursery(s.pc, s.used) && s.cur in s.pc && s.pc[s.cur].ForkData? && s.pc[s.cur].child == c
    ensures Nursery(Born(s, c).pc, s.used)
  {
  }

  lemma ForkShares(s: State)
    requires Inv(s) && s.cur in s.pc && s.pc[s.cur].ForkData?
    ensures Shared(s.fd, s.data, s.cur, s.pc[s.cur].child, MAXFD, s.pc[s.cur].i) && s.pc[s.cur].i <= MAXFD
  {
    hide Gone, Ends, Snapshot, Shared;
    assert Sensible(s.fd, s.data, s.cur, s.pc[s.cur]);
  }

  /** With all pages shared, the child can run. */
  lemma BornKeeps(s: State)
    requires Inv(s) && s.cur in s.pc && s.pc[s.cur].ForkData? && s.pc[s.cur].i == MAXFD
    ensures Inv(Born(s, s.pc[s.cur].child))
  {
    hide Sensible, Snapshot, Gone, Ends, Shared, LiveBacked, Placed;
    var c := s.pc[s.cur].child;
    var t := Born(s, c);
    ForkShares(s);
    BornBacked(s, c);
    BornNursery(s, c);
    IdleSensible(t.fd, t.data, c);
    IdleSensible(t.fd, t.data, s.cur);
    NoCounts(t.fd, t.data, c, Idle, 0, false);
    NoCounts(t.fd, t.data, s.cur, Idle, t.runs[s.cur], true);
  }

  lemma IdleSensible(fd: map<Slot, End>, data: set<Slot>, e: nat)
    ensures Sensible(fd, data, e, Idle)
  {
  }

  lemma StepKeeps(s: State, a: Action)
    requires Inv(s) && Enabled(s, a)
    ensures Inv(Next(s, a))
  {
    hide Inv;
    match a {
      case Switch(e) => SwitchKeeps(s, e);
      case Destroy(e) => DestroyKeeps(s, e);
      case StartFork(c) => StartForkKeeps(s, c);
      case Step(ok) =>
        var pc := s.pc[s.cur];
        if pc.UnmapFd? || pc.UnmapData? || pc.UnmapFdAgain? {
          CloseKeeps(s, ok);
        } else if pc.MapData? || pc.MapFd? {
          MapKeeps(s, ok);
        } else if pc.UndoFd? || pc.UndoData? {
          UndoKeeps(s, ok);
        } else if pc.ForkFd? {
          ForkFdKeeps(s, ok);
        } else if pc.ForkData? && pc.i < MAXFD {
          ForkDataKeeps(s, ok);
        } else if pc.ForkData? {
          ForkShares(s);
          BornKeeps(s);
        } else {
          ProbeKeeps(s, ok);
        }
      case _ => StartKeeps(s, a);
    }
  }

  // --------------------------------------------------------------------- runs

  ghost predicate Run(states: seq<State>, acts: seq<Action>) {
    && |states| == |acts| + 1
    && (forall i :: 0 <= i < |acts| ==> Enabled(states[i], acts[i]) && states[i + 1] == Next(states[i], acts[i]))
  }

  /** Just after pipe() in environment e. */
  ghost predicate Created(s: State, e: nat, rd: nat, wr: nat) {
    && rd != wr && rd < MAXFD && wr < MAXFD
    && s == State(map[Slot(e, rd) := Rd, Slot(e, wr) := Wr], {Slot(e, rd), Slot(e, wr)}, map[e := Idle], map[e := 1],
                  e, {e})
  }

  lemma CreatedInv(s: State, e: nat, rd: nat, wr: nat)
    requires Created(s, e, rd, wr)
    ensures Inv(s)
  {
  }

  lemma {:induction false} RunInv(states: seq<State>, acts: seq<Action>, e: nat, rd: nat, wr: nat, i: nat)
    requires Run(states, acts) && Created(states[0], e, rd, wr) && i < |states|
    ensures Inv(states[i])
  {
    if i == 0 {
      CreatedInv(states[0], e, rd, wr);
    } else {
      RunInv(states, acts, e, rd, wr, i - 1);
      StepKeeps(states[i - 1], acts[i - 1]);
    }
  }

  /**
   In every interleaving: the pipe page has a reference for each descriptor that has its data
   page and for each data page on its own; only a child in the making has a descriptor without
   its data page; and if _pipeisclosed answers true when there is none, then no descriptor of
   the other end is open in any environment.
   */
  lemma ClosedIsSound(states: seq<State>, acts: seq<Action>, e: nat, rd: nat, wr: nat, i: nat, x: nat)
    requires Run(states, acts) && Created(states[0], e, rd, wr) && i < |states|
    ensures var s := states[i];
      && |s.data| + |Unbacked(s.fd, s.data)| == |Ends(s.fd, Rd)| + |Ends(s.fd, Wr)| + |Extra(s.fd, s.data)|
      && (forall k :: k in Unbacked(s.fd, s.data) ==> k.env !in s.pc)
    ensures var s := states[i];
      x in s.pc && s.pc[x].Answered? && s.pc[x].closed && s.pc[x].backed ==>
        Slot(x, s.pc[x].i) in s.fd && Gone(s.fd, Other(s.fd[Slot(x, s.pc[x].i)]))
  {
    hide Run, Created, Inv, Ends, Gone, Unbacked, Extra;
    RunInv(states, acts, e, rd, wr, i);
    RefsAre(states[i].fd, states[i].data);
    OnlyUnborn(states[i]);
    if x in states[i].pc {
      AnswerHolds(states[i], x);
    }
  }

  lemma OnlyUnborn(s: State)
    requires Inv(s)
    ensures forall k :: k in Unbacked(s.fd, s.data) ==> k.env !in s.pc
  {
  }

  lemma AnswerHolds(s: State, x: nat)
    requires Inv(s) && x in s.pc
    ensures s.pc[x].Answered? && s.pc[x].closed && s.pc[x].backed ==>
      Slot(x, s.pc[x].i) in s.fd && Gone(s.fd, Other(s.fd[Slot(x, s.pc[x].i)]))
  {
    hide Ends;
  }

  /**
   What _pipeisclosed answers, exactly: the state at its return decides, and it says closed
   with a descriptor of the other end open if and only if there are as many descriptors
   without their data page as that end has, plus the data pages on their own.
   */
  lemma AnswerIff(s: State)
    requires Inv(s) && s.cur in s.pc && s.pc[s.cur].CheckRuns? && s.pc[s.cur].n == s.runs[s.cur]
    ensures Slot(s.cur, s.pc[s.cur].i) in s.fd
    ensures var pc, other := s.pc[s.cur], Other(s.fd[Slot(s.cur, s.pc[s.cur].i)]);
      && Advance(s, true).pc[s.cur] == Answered(pc.i, pc.ret, Backed(s.fd, s.data))
      && (pc.ret <==> |Ends(s.fd, other)| + |Extra(s.fd, s.data)| == |Unbacked(s.fd, s.data)|)
      && (pc.ret && !Gone(s.fd, other) <==>
          0 < |Ends(s.fd, other)| == |Unbacked(s.fd, s.data)| - |Extra(s.fd, s.data)|)
  {
    hide Gone, Ends, Unbacked, Extra, Backed;
    OwnSlots(s);
    var end := s.fd[Slot(s.cur, s.pc[s.cur].i)];
    CountsIff(s.fd, s.data, end);
    NoEnds(s.fd, Other(end));
  }

  /** Once an end is gone it never comes back. */
  lemma GoneStays(s: State, a: Action, end: End)
    requires Inv(s) && Enabled(s, a) && Gone(s.fd, end)
    ensures Gone(Next(s, a).fd, end)
  {
    hide Inv, Ends;
  }

  /** If every descriptor belongs to an environment that can run, each has its data page. */
  lemma OnlyChildrenLack(s: State)
    requires Inv(s) && forall k :: k in s.fd ==> k.env in s.pc
    ensures Backed(s.fd, s.data)
  {
  }

  /** Exit closes what the environment had, and an end is gone exactly if nobody else has it. */
  lemma ExitCloses(s: State, e: nat, end: End)
    requires Enabled(s, Destroy(e))
    ensures var t := Next(s, Destroy(e));
      && (forall k: Slot :: k in t.fd <==> k in s.fd && k.env != e)
      && (forall k: Slot :: k in t.data <==> k in s.data && k.env != e)
      && (Gone(t.fd, end) <==> forall k :: k in s.fd && s.fd[k] == end ==> k.env == e)
  {
    var t := Next(s, Destroy(e));
    if forall k :: k in s.fd && s.fd[k] == end ==> k.env == e {
      assert Gone(t.fd, end);
    } else {
      var k :| k in s.fd && s.fd[k] == end && k.env != e;
      assert k in t.fd && t.fd[k] == end;
    }
  }

  /** With nobody in the middle of dup or close, and no child in the making, the test is exact. */
  lemma QuietIsExact(s: State, end: End)
    requires Inv(s) && (forall e :: e in s.pc ==> forall i :: !Busy(s.pc[e], i)) && Backed(s.fd, s.data)
    ensures |Ends(s.fd, end)| == |s.data| <==> Gone(s.fd, Other(end))
  {
    assert Extra(s.fd, s.data) == {};
    ProbeExact(s.fd, s.data, end);
  }

  // ----------------------------------------------------------------- such a run

  lemma RunExtends(states: seq<State>, acts: seq<Action>, a: Action)
    requires Run(states, acts) && Enabled(states[|acts|], a)
    ensures |states| == |acts| + 1 && Run(states + [Next(states[|acts|], a)], acts + [a])
  {
    hide Enabled, Next;
  }

  /** The machine, with the run that led to its state. */
  class Trace {
    var s: State
    ghost const start: State
    ghost var states: seq<State>
    ghost var acts: seq<Action>

    ghost predicate Traced()
      reads this
    {
      Run(states, acts) && start == states[0] && s == states[|acts|] && Inv(s)
    }

    constructor (e: nat, rd: nat, wr: nat)
      requires rd != wr && rd < MAXFD && wr < MAXFD
      ensures Traced() && s == start && Created(start, e, rd, wr)
    {
      var s0 := State(map[Slot(e, rd) := Rd, Slot(e, wr) := Wr], {Slot(e, rd), Slot(e, wr)}, map[e := Idle],
                      map[e := 1], e, {e});
      s, start, states, acts := s0, s0, [s0], [];
      new;
      hide Inv;
      CreatedInv(s0, e, rd, wr);
    }

    method Do(a: Action)
      requires Traced() && Enabled(s, a)
      modifies this
      ensures Traced() && s == Next(old(s), a)
    {
      hide Inv, Enabled, Next, Run;
      StepKeeps(s, a);
      RunExtends(states, acts, a);
      s, acts, states := Next(s, a), acts + [a], states + [Next(s, a)];
    }

    /** Descriptor pages from i on, up to j. */
    method FdPages(c: nat, i: nat, j: nat)
      requires Traced() && s.cur in s.pc && s.cur in s.runs && s.pc[s.cur] == ForkFd(c, i) && i <= j <= MAXFD
      modifies this
      ensures Traced() && s == old(s).(fd := s.fd, pc := old(s.pc)[old(s.cur) := ForkFd(c, j)])
      ensures forall k: Slot :: k.env != c ==> (k in s.fd <==> k in old(s.fd))
      ensures forall k: Slot :: k.env != c && k in s.fd ==> s.fd[k] == old(s.fd)[k]
    {
      hide Inv, Run;
      ghost var s0 := s;
      var n := i;
      while n < j
        invariant i <= n <= j && Traced() && s == s0.(fd := s.fd, pc := s0.pc[s0.cur := ForkFd(c, n)])
        invariant forall k: Slot :: k.env != c ==> (k in s.fd <==> k in s0.fd)
        invariant forall k: Slot :: k.env != c && k in s.fd ==> s.fd[k] == s0.fd[k]
      {
        Do(Step(true));
        n := n + 1;
      }
    }

    /** All data pages. */
    method DataPages(c: nat)
      requires Traced() && s.cur in s.pc && s.cur in s.runs && s.pc[s.cur] == ForkData(c, 0)
      modifies this
      ensures Traced() && s == old(s).(data := s.data, pc := old(s.pc)[old(s.cur) := ForkData(c, MAXFD)])
      ensures forall k: Slot :: k.env != c ==> (k in s.data <==> k in old(s.data))
    {
      hide Inv, Run;
      ghost var s0 := s;
      var n := 0;
      while n < MAXFD
        invariant n <= MAXFD && Traced() && s == s0.(data := s.data, pc := s0.pc[s0.cur := ForkData(c, n)])
        invariant forall k: Slot :: k.env != c ==> (k in s.data <==> k in s0.data)
      {
        Do(Step(true));
        n := n + 1;
      }
    }

    /** fork without interruption gives the child every descriptor with its data page. */
    method ForkAll(c: nat)
      requires Traced() && Enabled(s, StartFork(c)) && s.cur in s.runs
      modifies this
      ensures Traced() && s.cur == old(s.cur) && s.used == old(s.used) + {c}
      ensures s.pc == old(s.pc)[c := Idle] && s.runs == old(s.runs)[c := 0]
      ensures forall k: Slot :: k.env != c ==> (k in s.fd <==> k in old(s.fd)) && (k in s.data <==> k in old(s.data))
      ensures forall k: Slot :: k.env != c && k in s.fd ==> s.fd[k] == old(s.fd)[k]
      ensures Shared(s.fd, s.data, s.cur, c, MAXFD, MAXFD)
    {
      hide Inv, Run, Shared;
      Do(StartFork(c));
      FdPages(c, 0, MAXFD);
      Do(Step(true));
      DataPages(c);
      ForkShares(s);
      Do(Step(true));
      assert s.pc == old(s.pc)[c := Idle];
    }

    /** close without interruption. */
    method CloseAll(i: nat)
      requires Traced() && s.cur in s.pc && s.cur in s.runs && s.pc[s.cur] == Idle
      requires i < MAXFD && Slot(s.cur, i) in s.fd
      modifies this
      ensures Traced()
      ensures s == old(s).(fd := old(s.fd) - {Slot(old(s.cur), i)}, data := old(s.data) - {Slot(old(s.cur), i)})
    {
      hide Inv, Run;
      ghost var s0 := s;
      Do(StartClose(i));
      Do(Step(true));
      Do(Step(true));
      Do(Step(true));
      assert s.fd == s0.fd - {Slot(s0.cur, i)};
      assert s.pc == s0.pc;
    }

    /** The loads of _pipeisclosed. */
    method ReadCounts(i: nat)
      requires Traced() && Enabled(s, StartProbe(i)) && s.cur in s.runs
      modifies this
      ensures Traced()
      ensures s == Go(old(s), CheckRuns(i, old(s.runs)[old(s.cur)],
                                        |Ends(old(s.fd), old(s.fd)[Slot(old(s.cur), i)])| == |old(s.data)|))
    {
      hide Inv, Run, Ends;
      Do(StartProbe(i));
      Do(Step(true));
      Do(Step(true));
      Do(Step(true));
    }

    /** pipeisclosed without interruption: it compares the counts and returns, and changes nothing. */
    method ProbeAll(i: nat) returns (closed: bool)
      requires Traced() && Enabled(s, StartProbe(i)) && s.cur in s.runs
      modifies this
      ensures Traced() && s == old(s)
      ensures closed <==> |Ends(s.fd, s.fd[Slot(s.cur, i)])| == |s.data|
      ensures Backed(s.fd, s.data) && Extra(s.fd, s.data) == {} ==>
        (closed <==> Gone(s.fd, Other(s.fd[Slot(s.cur, i)])))
    {
      hide Inv, Run, Ends, Backed, Gone, Extra;
      ghost var s0 := s;
      if Backed(s.fd, s.data) && Extra(s.fd, s.data) == {} {
        ProbeExact(s.fd, s.data, s.fd[Slot(s.cur, i)]);
      }
      ReadCounts(i);
      Do(Step(true));
      closed := s.pc[s.cur].closed;
      Do(Step(true));
      assert s.pc == s0.pc;
    }

    /** The first half of dup: close the new number if it is open. */
    method CloseFirst(src: nat, dst: nat)
      requires Traced() && Enabled(s, StartDup(src, dst)) && s.cur in s.runs
      modifies this
      ensures Traced()
      ensures s == Go(old(s).(fd := old(s.fd) - {Slot(old(s.cur), dst)}, data := old(s.data) - {Slot(old(s.cur), dst)}),
                      MapData(src, dst))
    {
      hide Inv, Run;
      ghost var s0 := s;
      IdleSlots(s, dst);
      Do(StartDup(src, dst));
      if s.pc[s.cur].UnmapFd? {
        Do(Step(true));
        Do(Step(true));
        Do(Step(true));
      }
      assert s.fd == s0.fd - {Slot(s0.cur, dst)} && s.data == s0.data - {Slot(s0.cur, dst)};
      assert s.pc == s0.pc[s0.cur := MapData(src, dst)];
    }

    /** The error path of dup. */
    method Undo(dst: nat)
      requires Traced() && s.cur in s.pc && s.cur in s.runs && s.pc[s.cur] == UndoFd(dst)
      modifies this
      ensures Traced()
      ensures s == Go(old(s).(fd := old(s.fd) - {Slot(old(s.cur), dst)}, data := old(s.data) - {Slot(old(s.cur), dst)}),
                      Idle)
    {
      hide Inv, Run;
      Do(Step(true));
      Do(Step(true));
    }

    /** The descriptor page of dup, once the data page is mapped. */
    method OpenNew(src: nat, dst: nat, ok: bool)
      requires Traced() && s.cur in s.pc && s.cur in s.runs && s.pc[s.cur] == MapFd(src, dst)
      modifies this
      ensures Traced()
      ensures var from, to := Slot(old(s.cur), src), Slot(old(s.cur), dst);
        s == Go(if from in old(s.fd) && ok
                then old(s).(fd := old(s.fd)[to := old(s.fd)[from]])
                else old(s).(fd := old(s.fd) - {to}, data := old(s.data) - {to}),
                Idle)
    {
      hide Inv, Run;
      Do(Step(ok));
      if s.pc[s.cur].UndoFd? {
        Undo(dst);
      }
    }

    /**
     dup without interruption: the new number is closed, and then open for the same end with its
     data page if both system calls succeed, unless it is the old number.
     */
    method DupAll(src: nat, dst: nat, okData: bool, okFd: bool)
      requires Traced() && Enabled(s, StartDup(src, dst)) && s.cur in s.runs
      modifies this
      ensures Traced() && s == old(s).(fd := s.fd, data := s.data)
      ensures var from, to := Slot(old(s.cur), src), Slot(old(s.cur), dst);
        if src != dst && okData && okFd
        then s.fd == old(s.fd)[to := old(s.fd)[from]] && s.data == old(s.data) + {to}
        else s.fd == old(s.fd) - {to} && s.data == old(s.data) - {to}
    {
      hide Inv, Run;
      ghost var s0, k := s, Slot(s.cur, dst);
      IdleSlots(s, src);
      CloseFirst(src, dst);
      Do(Step(okData));
      if s.pc[s.cur].MapFd? {
        OpenNew(src, dst, okFd);
      } else {
        Undo(dst);
      }
      assert s.pc == s0.pc;
      assert src != dst && okData && okFd ==> s.fd == s0.fd[k := s0.fd[Slot(s0.cur, src)]] && s.data == s0.data + {k};
      assert !(src != dst && okData && okFd) ==> s.fd == s0.fd - {k} && s.data == s0.data - {k};
    }
  }

  lemma ProbeExact(fd: map<Slot, End>, data: set<Slot>, e: End)
    requires Backed(fd, data) && Extra(fd, data) == {}
    ensures |Ends(fd, e)| == |data| <==> Gone(fd, Other(e))
  {
    CountsIff(fd, data, e);
    NoEnds(fd, Other(e));
    assert Unbacked(fd, data) == {};
  }

  /** Between operations a descriptor is open exactly if its data page is there. */
  lemma IdleSlots(s: State, i: nat)
    requires Inv(s) && s.cur in s.pc && s.pc[s.cur] == Idle
    ensures Slot(s.cur, i) in s.fd <==> Slot(s.cur, i) in s.data
  {
  }

  /** Environment 0 has both ends and environment 1 the read end. */
  function Three(): map<Slot, End> {
    map[Slot(0, 0) := Rd, Slot(0, 1) := Wr, Slot(1, 0) := Rd]
  }

  function ThreeData(): set<Slot> {
    {Slot(0, 0), Slot(0, 1), Slot(1, 0)}
  }

  /** Environment 2 has got the descriptors of 0, and no data page yet. */
  function Five(): map<Slot, End> {
    Three()[Slot(2, 0) := Rd][Slot(2, 1) := Wr]
  }

  lemma FiveCounts()
    ensures |Ends(Five(), Rd)| == 3 == |ThreeData()| && !Backed(Five(), ThreeData()) && !Gone(Five(), Wr)
  {
    assert Ends(Five(), Rd) == {Slot(0, 0), Slot(1, 0), Slot(2, 0)};
    assert Five()[Slot(2, 1)] == Wr && Slot(2, 1) !in ThreeData();
  }

  lemma AfterClose(fd: map<Slot, End>, data: set<Slot>)
    requires forall k: Slot :: k.env != 1 ==> (k in fd <==> k in {Slot(0, 0), Slot(0, 1)})
    requires forall k: Slot :: k.env != 1 ==> (k in data <==> k in {Slot(0, 0), Slot(0, 1)})
    requires Slot(0, 0) in fd && Slot(0, 1) in fd && fd[Slot(0, 0)] == Rd && fd[Slot(0, 1)] == Wr
    requires Shared(fd, data, 0, 1, MAXFD, MAXFD)
    ensures Slot(1, 1) in fd && fd - {Slot(1, 1)} == Three() && data - {Slot(1, 1)} == ThreeData()
  {
    assert Slot(1, 0) in fd && Slot(1, 1) in fd && Slot(1, 0) in data;
    assert forall k: Slot :: k in fd - {Slot(1, 1)} <==> k in Three();
    assert forall k: Slot :: k in data - {Slot(1, 1)} <==> k in ThreeData();
  }

  /** Environment 0 forks 1, and 1 closes its write end. */
  method OneReader() returns (l: Trace)
    ensures fresh(l) && l.Traced() && Created(l.start, 0, 0, 1)
    ensures l.s == State(Three(), ThreeData(), map[0 := Idle, 1 := Idle], map[0 := 1, 1 := 1], 1, {0, 1})
  {
    hide Inv, Run, Shared, Three, ThreeData;
    l := new Trace(0, 0, 1);
    l.ForkAll(1);
    AfterClose(l.s.fd, l.s.data);
    l.Do(Switch(1));
    l.CloseAll(1);
    assert l.s.pc == map[0 := Idle, 1 := Idle] && l.s.runs == map[0 := 1, 1 := 1] && l.s.used == {0, 1};
  }

  /** Two environments, and a third in the making. */
  function Pair(fd: map<Slot, End>, pc0: Pc, pc1: Pc, runs0: nat, runs1: nat, cur: nat, used: set<nat>): State {
    State(fd, ThreeData(), map[0 := pc0, 1 := pc1], map[0 := runs0, 1 := runs1], cur, used)
  }

  lemma ForkAgain()
    ensures var s0 := Pair(Three(), Idle, Idle, 1, 1, 1, {0, 1});
      Enabled(s0, Switch(0)) && Next(s0, Switch(0)) == Pair(Three(), Idle, Idle, 2, 1, 0, {0, 1})
    ensures var s1 := Pair(Three(), Idle, Idle, 2, 1, 0, {0, 1});
      Enabled(s1, StartFork(2)) && Next(s1, StartFork(2)) == Pair(Three(), ForkFd(2, 0), Idle, 2, 1, 0, {0, 1, 2})
  {
    hide ThreeData, Three;
    assert {0, 1} + {2} == {0, 1, 2};
    assert map[0 := 1, 1 := 1][0 := 2] == map[0 := 2, 1 := 1];
    assert map[0 := Idle, 1 := Idle][0 := ForkFd(2, 0)] == map[0 := ForkFd(2, 0), 1 := Idle];
  }

  lemma OnePage(fd: map<Slot, End>, i: nat)
    requires i < MAXFD && Slot(0, i) in fd
    ensures var s := Pair(fd, ForkFd(2, i), Idle, 2, 1, 0, {0, 1, 2});
      && Enabled(s, Step(true))
      && Next(s, Step(true)) == Pair(fd[Slot(2, i) := fd[Slot(0, i)]], ForkFd(2, i + 1), Idle, 2, 1, 0, {0, 1, 2})
  {
    hide ThreeData;
    assert map[0 := ForkFd(2, i), 1 := Idle][0 := ForkFd(2, i + 1)] == map[0 := ForkFd(2, i + 1), 1 := Idle];
  }

  lemma SwitchBack()
    ensures var s := Pair(Five(), ForkFd(2, 2), Idle, 2, 1, 0, {0, 1, 2});
      Enabled(s, Switch(1)) && Next(s, Switch(1)) == Pair(Five(), ForkFd(2, 2), Idle, 2, 2, 1, {0, 1, 2})
  {
    hide ThreeData, Five;
    assert map[0 := 2, 1 := 1][1 := 2] == map[0 := 2, 1 := 2];
  }

  /** Then 0 forks again and is interrupted after two descriptor pages. */
  method HalfForked() returns (l: Trace)
    ensures fresh(l) && l.Traced() && Created(l.start, 0, 0, 1)
    ensures l.s == Pair(Five(), ForkFd(2, 2), Idle, 2, 2, 1, {0, 1, 2})
  {
    hide Inv, Run, ThreeData, Next, Enabled;
    l := OneReader();
    ForkAgain();
    OnePage(Three(), 0);
    OnePage(Three()[Slot(2, 0) := Rd], 1);
    SwitchBack();
    l.Do(Switch(0));
    l.Do(StartFork(2));
    l.Do(Step(true));
    l.Do(Step(true));
    l.Do(Switch(1));
  }

  /** A step of _pipeisclosed. */
  function Probing(pc: Pc): State {
    Pair(Five(), ForkFd(2, 2), pc, 2, 2, 1, {0, 1, 2})
  }

  lemma ProbeGoes(pc: Pc, pc1: Pc)
    ensures Go(Probing(pc), pc1) == Probing(pc1)
  {
    hide ThreeData, Five;
    assert map[0 := ForkFd(2, 2), 1 := pc][1 := pc1] == map[0 := ForkFd(2, 2), 1 := pc1];
  }

  lemma ProbeStarts()
    ensures Enabled(Probing(Idle), StartProbe(0)) && Next(Probing(Idle), StartProbe(0)) == Probing(ReadRuns(0))
  {
    hide ThreeData, Go;
    ProbeGoes(Idle, ReadRuns(0));
  }

  lemma RunsRead()
    ensures var s := Probing(ReadRuns(0)); Enabled(s, Step(true)) && Next(s, Step(true)) == Probing(ReadFdRef(0, 2))
  {
    hide ThreeData, Five, Go;
    ProbeGoes(ReadRuns(0), ReadFdRef(0, 2));
  }

  lemma FdRefRead()
    ensures var s := Probing(ReadFdRef(0, 2));
      Enabled(s, Step(true)) && Next(s, Step(true)) == Probing(ReadPipeRef(0, 2, 3))
  {
    hide ThreeData, Ends, Go, Backed, Gone;
    FiveCounts();
    ProbeGoes(ReadFdRef(0, 2), ReadPipeRef(0, 2, 3));
  }

  lemma PipeRefRead()
    ensures var s := Probing(ReadPipeRef(0, 2, 3));
      Enabled(s, Step(true)) && Next(s, Step(true)) == Probing(CheckRuns(0, 2, true))
  {
    hide ThreeData, Five, Ends, Go, Backed, Gone;
    FiveCounts();
    ProbeGoes(ReadPipeRef(0, 2, 3), CheckRuns(0, 2, true));
  }

  lemma RunsChecked()
    ensures var s := Probing(CheckRuns(0, 2, true));
      Enabled(s, Step(true)) && Next(s, Step(true)) == Probing(Answered(0, true, false))
  {
    hide ThreeData, Five, Ends, Go, Backed, Gone;
    FiveCounts();
    ProbeGoes(CheckRuns(0, 2, true), Answered(0, true, false));
  }

  /** The reader is told that the pipe is closed, with two write descriptors open. */
  method ClosedTooSoon() returns (l: Trace)
    ensures fresh(l) && l.Traced() && Created(l.start, 0, 0, 1)
    ensures l.s.cur == 1 && 1 in l.s.pc && l.s.pc[1] == Answered(0, true, false)
    ensures Slot(1, 0) in l.s.fd && l.s.fd[Slot(1, 0)] == Rd && !Gone(l.s.fd, Wr)
  {
    hide Inv, Run, ThreeData, Ends, Backed, Gone, Next, Enabled;
    l := HalfForked();
    FiveCounts();
    ProbeStarts();
    RunsRead();
    FdRefRead();
    PipeRefRead();
    RunsChecked();
    l.Do(StartProbe(0));
    l.Do(Step(true));
    l.Do(Step(true));
    l.Do(Step(true));
    l.Do(Step(true));
  }
}
