/**
 What copy-on-write fork must not take away: every page that a program could write before
 a fork, it and its child can write afterwards, at the price of one fault.
 */
module CowWrites {
  import opened CowFork
  import opened Wrappers
  import Common

  /** A store to k succeeds, or faults and is taken up by the handler. */
  predicate CanWrite(pt: map<Va, Pte>, k: Va) {
    k in pt && (pt[k].perm.w || pt[k].perm.cow)
  }

  predicate Runnable(th: map<nat, Thread>, e: nat) {
    e in th && th[e].maker == None
  }

  /** The owner of k reallocates or unmaps it. */
  predicate Replaces(a: Action, k: Va) {
    (a.PageAlloc? || a.PageUnmap?) && OwnAction(a, k)
  }

  /** In a running environment, a store has its effect or faults properly exactly on such a page. */
  lemma StoreIff(s: State, k: Va)
    requires Running(s.th, k.env) && k.pn != PFTEMP
    ensures CanWrite(s.pt, k) <==> Enabled(s, Write(k, 0, 0)) || Enabled(s, TakeFault(k))
  {
  }

  // ------------------------------------------------- pages of running programs

  lemma SelfStays(s: State, kind: map<nat, Kind>, e: nat, k: Va)
    requires InvBy(s, kind) && Enabled(s, MapSelf(e)) && k in s.pt
    ensures k in Next(s, MapSelf(e)).pt && CanWrite(Next(s, MapSelf(e)).pt, k) == CanWrite(s.pt, k)
  {
    hide Kinds, Threads, Handlers;
    DupAt(s, e);
  }

  lemma FaultStays(s: State, kind: map<nat, Kind>, e: nat, k: Va)
    requires InvBy(s, kind) && Enabled(s, HandlerMap(e)) && k in s.pt
    ensures k in Next(s, HandlerMap(e)).pt && CanWrite(Next(s, HandlerMap(e)).pt, k) == CanWrite(s.pt, k)
  {
    hide Kinds, Threads, Forks;
    HandlerAt(s, kind, e);
  }

  /** No step but the owner's own makes a page of a runnable environment writable or takes that away. */
  lemma StepStays(s: State, a: Action, k: Va)
    requires Inv(s) && Enabled(s, a) && k in s.pt && k.pn != PFTEMP && Runnable(s.th, k.env) && !Replaces(a, k)
    ensures k in Next(s, a).pt && CanWrite(Next(s, a).pt, k) == CanWrite(s.pt, k)
  {
    hide Kinds, Forks, Handlers;
    var kind :| InvBy(s, kind);
    if a.MapSelf? {
      SelfStays(s, kind, a.env, k);
    } else if a.HandlerMap? {
      FaultStays(s, kind, a.env, k);
    } else if a.MapChild? || a.ChildStack? {
      ChildOf(s.th, a.env);
    }
  }

  /** The same through any run of any threads. */
  lemma {:induction false} RunStays(states: seq<State>, acts: seq<Action>, k: Va, i: nat)
    requires Run(states, acts) && i <= |acts| && Inv(states[0]) && Undisturbed(acts, k)
    requires k in states[0].pt && k.pn != PFTEMP && Runnable(states[0].th, k.env)
    ensures Inv(states[i]) && Runnable(states[i].th, k.env)
    ensures k in states[i].pt && CanWrite(states[i].pt, k) == CanWrite(states[0].pt, k)
  {
    hide Inv, Enabled, Next, OwnAction, CanWrite;
    if i > 0 {
      RunStays(states, acts, k, i - 1);
      StepKeeps(states[i - 1], acts[i - 1]);
      MakerStays(states[i - 1], acts[i - 1], k.env);
      StepStays(states[i - 1], acts[i - 1], k);
    }
  }

  /** A run of at most n steps, in which the owner of k does not replace it, ends where it can store to k. */
  ghost predicate StoredBy(states: seq<State>, acts: seq<Action>, s: State, k: Va, n: nat) {
    && Run(states, acts) && |acts| <= n && states[0] == s && Undisturbed(acts, k)
    && Enabled(states[|acts|], Write(k, 0, 0))
  }

  ghost predicate Storable(s: State, k: Va, n: nat) {
    exists states, acts :: StoredBy(states, acts, s, k, n)
  }

  /** The five steps of one fault make the page writable. */
  lemma FaultStores(s: State, k: Va)
    requires Running(s.th, k.env) && k.pn != PFTEMP && CowAt(s.pt, k)
    ensures Storable(s, k, 5)
  {
    hide Run, HandlingAt, Next;
    var f := SomeFrameUnused(s.pt);
    var states, acts := FaultRun(s, k, f);
    var s4 := states[4];
    HandlerLeaves(s4.pt, s4.mem, s.th, k);
    RunExtends(states, acts, HandlerUnmap(k.env));
    var states1, acts1 := states + [Next(s4, HandlerUnmap(k.env))], acts + [HandlerUnmap(k.env)];
    assert Undisturbed(acts1, k);
    assert StoredBy(states1, acts1, s, k, 5);
  }

  /**
   A running environment can come to store to a page that it does not replace if and only if
   the page is writable or PTE_COW, and then within one fault, whatever ran before.
   */
  lemma StorableIff(s: State, k: Va, n: nat)
    requires Inv(s) && Running(s.th, k.env) && k in s.pt && k.pn != PFTEMP && n >= 5
    ensures Storable(s, k, n) <==> CanWrite(s.pt, k)
  {
    hide Run, Inv, Next;
    if CanWrite(s.pt, k) {
      if s.pt[k].perm.w {
        NoSteps(s);
        assert StoredBy([s], [], s, k, n);
      } else {
        FaultStores(s, k);
        var states, acts :| StoredBy(states, acts, s, k, 5);
        assert StoredBy(states, acts, s, k, n);
      }
    } else if Storable(s, k, n) {
      var states, acts :| StoredBy(states, acts, s, k, n);
      RunStays(states, acts, k, |acts|);
    }
  }

  lemma NoSteps(s: State)
    ensures Run([s], [])
  {
  }

  // --------------------------------------------------------- pages of children

  /** How many pages fork has sent. */
  function Progress(fork: Fork): nat {
    match fork
    case NoFork => 0
    case At(_, pn, phase) => if phase.Mapped? then pn + 1 else pn
    case Stacked(_) => LIMIT
  }

  /** Page pn of the child is there if fork has sent it, and can be written if ours can. */
  predicate MirroredAt(pt: map<Va, Pte>, e: nat, fork: Fork, pn: nat)
    requires fork != NoFork
  {
    var own, its := Va(e, pn), Va(fork.child, pn);
    if pn == PFTEMP then its !in pt
    else if pn < Progress(fork) then (its in pt <==> own in pt) && CanWrite(pt, its) == CanWrite(pt, own)
    else if pn == XSTACK && fork.Stacked? then CanWrite(pt, its)
    else its !in pt
  }

  ghost predicate Mirrored(pt: map<Va, Pte>, e: nat, fork: Fork) {
    fork != NoFork ==> forall pn: nat :: MirroredAt(pt, e, fork, pn)
  }

  /** Every child in the making has so far the same pages as its parent, each as writable. */
  ghost predicate Mirrors(s: State) {
    forall e :: e in s.th ==> Mirrored(s.pt, e, s.th[e].fork)
  }

  /** Two forks never have the same child, and no child forks. */
  lemma ChildrenApart(th: map<nat, Thread>, x: nat, e: nat)
    requires Threads(th) && x in th && e in th && th[x].fork != NoFork && th[e].fork != NoFork && x != e
    ensures th[x].fork.child != th[e].fork.child && th[x].fork.child != e && th[e].fork.child != x
  {
    ChildOf(th, x);
    ChildOf(th, e);
  }

  predicate ForkStep(a: Action) {
    a.Exofork? || a.LookAt? || a.MapChild? || a.MapSelf? || a.ChildStack? || a.SetRunnable?
  }

  /** A step outside fork gives nobody in fork a page and takes none from a child. */
  lemma OutsidePages(s: State, a: Action, k: Va)
    requires Inv(s) && Enabled(s, a) && !ForkStep(a) && k.env in s.th && k.pn != PFTEMP
    requires s.th[k.env].maker.Some? || s.th[k.env].fork != NoFork
    ensures k in Next(s, a).pt <==> k in s.pt
    ensures s.th[k.env].maker.Some? && k in s.pt ==> Next(s, a).pt[k] == s.pt[k]
  {
    hide Kinds, Forks;
    var kind :| InvBy(s, kind);
    if a.HandlerMap? {
      HandlerAt(s, kind, a.env);
    }
  }

  lemma OutsideThreads(s: State, a: Action, x: nat)
    requires Enabled(s, a) && !ForkStep(a) && x in s.th
    ensures x in Next(s, a).th && Next(s, a).th.Keys == s.th.Keys && Next(s, a).th[x].fork == s.th[x].fork
  {
  }

  /** Only a running environment's handler has a page at PFTEMP. */
  lemma NoTemp(s: State, c: nat)
    requires Inv(s) && c in s.th && s.th[c].maker.Some?
    ensures Va(c, PFTEMP) !in s.pt
  {
    hide Kinds, Forks;
    var kind :| InvBy(s, kind);
    HandlerAt(s, kind, c);
  }

  lemma OutsideMirror(s: State, a: Action, x: nat, pn: nat)
    requires Inv(s) && Enabled(s, a) && !ForkStep(a) && x in s.th && s.th[x].fork != NoFork
    requires MirroredAt(s.pt, x, s.th[x].fork, pn)
    ensures MirroredAt(Next(s, a).pt, x, s.th[x].fork, pn)
  {
    hide Next, Enabled, InvBy;
    var c := s.th[x].fork.child;
    var kind :| InvBy(s, kind);
    assert Threads(s.th) by { InvThreads(s, kind); }
    ChildOf(s.th, x);
    if pn == PFTEMP {
      StepKeeps(s, a);
      OutsideThreads(s, a, c);
      MakerKept(s, a, c);
      NoTemp(Next(s, a), c);
    } else {
      OutsidePages(s, a, Va(x, pn));
      OutsidePages(s, a, Va(c, pn));
      if Va(x, pn) in s.pt {
        assert !Replaces(a, Va(x, pn)) by { Busy(s, a, x); }
        StepStays(s, a, Va(x, pn));
      }
    }
  }

  lemma InvThreads(s: State, kind: map<nat, Kind>)
    requires InvBy(s, kind)
    ensures Threads(s.th)
  {
  }

  lemma MakerKept(s: State, a: Action, c: nat)
    requires Enabled(s, a) && !ForkStep(a) && c in s.th && s.th[c].maker.Some?
    ensures c in Next(s, a).th && Next(s, a).th[c].maker == s.th[c].maker
  {
  }

  lemma Busy(s: State, a: Action, x: nat)
    requires Enabled(s, a) && x in s.th && s.th[x].fork != NoFork
    ensures forall k: Va :: k.env == x ==> !Replaces(a, k)
  {
  }

  /** A step of e's fork does not touch another fork's pages. */
  lemma OtherMirror(s: State, a: Action, x: nat, pn: nat)
    requires Inv(s) && Enabled(s, a) && ForkStep(a) && a.env != x && x in s.th && s.th[x].fork != NoFork
    requires MirroredAt(s.pt, x, s.th[x].fork, pn)
    ensures x in Next(s, a).th && Next(s, a).th[x].fork == s.th[x].fork
    ensures MirroredAt(Next(s, a).pt, x, s.th[x].fork, pn)
  {
    hide Kinds, Forks, Handlers;
    var kind :| InvBy(s, kind);
    ChildOf(s.th, x);
    if !a.Exofork? {
      ChildrenApart(s.th, x, a.env);
    }
  }

  lemma ExoforkMirror(s: State, kind: map<nat, Kind>, e: nat, c: nat, pn: nat)
    requires InvBy(s, kind) && Enabled(s, Exofork(e, c))
    ensures MirroredAt(Next(s, Exofork(e, c)).pt, e, At(c, 0, Look), pn)
  {
    hide Threads, Forks, Handlers;
    NoPages(s, kind, Va(c, pn));
  }

  lemma LookMirror(s: State, kind: map<nat, Kind>, e: nat, pn: nat)
    requires InvBy(s, kind) && Enabled(s, LookAt(e)) && MirroredAt(s.pt, e, s.th[e].fork, pn)
    ensures MirroredAt(s.pt, e, Next(s, LookAt(e)).th[e].fork, pn)
  {
  }

  /** The child's new page can be written exactly if ours can. */
  lemma MapChildMirror(s: State, kind: map<nat, Kind>, e: nat, pn: nat)
    requires InvBy(s, kind) && Enabled(s, MapChild(e)) && MirroredAt(s.pt, e, s.th[e].fork, pn)
    ensures MirroredAt(Next(s, MapChild(e)).pt, e, Next(s, MapChild(e)).th[e].fork, pn)
  {
    hide Kinds, Threads, Handlers;
    DupAt(s, e);
    assert s.th[e].fork.child != e by { ChildOf(s.th, e); }
  }

  lemma MapSelfMirror(s: State, kind: map<nat, Kind>, e: nat, pn: nat)
    requires InvBy(s, kind) && Enabled(s, MapSelf(e)) && MirroredAt(s.pt, e, s.th[e].fork, pn)
    ensures MirroredAt(Next(s, MapSelf(e)).pt, e, Next(s, MapSelf(e)).th[e].fork, pn)
  {
    hide Kinds, Threads, Handlers;
    DupAt(s, e);
    assert s.th[e].fork.child != e by { ChildOf(s.th, e); }
  }

  lemma StackMirror(s: State, kind: map<nat, Kind>, e: nat, f: nat, pn: nat)
    requires InvBy(s, kind) && Enabled(s, ChildStack(e, f)) && MirroredAt(s.pt, e, s.th[e].fork, pn)
    ensures MirroredAt(Next(s, ChildStack(e, f)).pt, e, Stacked(s.th[e].fork.child), pn)
  {
    hide Kinds, Threads, Forks, Handlers;
    assert s.th[e].fork.child != e by { ChildOf(s.th, e); }
  }

  /** A step of e's fork itself. */
  lemma OwnMirror(s: State, a: Action, pn: nat)
    requires Inv(s) && Enabled(s, a) && ForkStep(a) && Mirrors(s)
    ensures a.env in Next(s, a).th
    ensures var fork := Next(s, a).th[a.env].fork; fork != NoFork ==> MirroredAt(Next(s, a).pt, a.env, fork, pn)
  {
    hide InvBy, MirroredAt;
    var kind :| InvBy(s, kind);
    assert !a.Exofork? ==> MirroredAt(s.pt, a.env, s.th[a.env].fork, pn) by {
      assert Mirrored(s.pt, a.env, s.th[a.env].fork);
    }
    match a
    case Exofork(e, c) => ExoforkMirror(s, kind, e, c, pn);
    case LookAt(e) => LookMirror(s, kind, e, pn);
    case MapChild(e) => MapChildMirror(s, kind, e, pn);
    case MapSelf(e) => MapSelfMirror(s, kind, e, pn);
    case ChildStack(e, f) => StackMirror(s, kind, e, f, pn);
    case SetRunnable(e) =>
  }

  lemma StepMirrors(s: State, a: Action)
    requires Inv(s) && Enabled(s, a) && Mirrors(s)
    ensures Mirrors(Next(s, a))
  {
    hide Inv, MirroredAt;
    var s1 := Next(s, a);
    forall x, pn: nat | x in s1.th && s1.th[x].fork != NoFork ensures MirroredAt(s1.pt, x, s1.th[x].fork, pn) {
      if ForkStep(a) && a.env == x {
        OwnMirror(s, a, pn);
      } else {
        assert x in s.th && s.th[x].fork != NoFork;
        assert Mirrored(s.pt, x, s.th[x].fork);
        if ForkStep(a) {
          OtherMirror(s, a, x, pn);
        } else {
          OutsideThreads(s, a, x);
          OutsideMirror(s, a, x, pn);
        }
      }
    }
  }

  lemma {:induction false} RunMirrors(states: seq<State>, acts: seq<Action>, e: nat, i: nat)
    requires Run(states, acts) && i <= |acts| && Boot(states[0], e)
    ensures Inv(states[i]) && Mirrors(states[i])
  {
    hide Inv, Enabled, Next, MirroredAt;
    if i == 0 {
      BootInv(states[0], e);
    } else {
      RunMirrors(states, acts, e, i - 1);
      StepKeeps(states[i - 1], acts[i - 1]);
      StepMirrors(states[i - 1], acts[i - 1]);
    }
  }

  /**
   However a fork was interrupted, when the child becomes runnable it has exactly its parent's
   pages below the exception stack and an exception stack, and can write exactly those of them
   that its parent can.
   */
  lemma ForkGivesAll(states: seq<State>, acts: seq<Action>, boot: nat, i: nat, e: nat, pn: nat)
    requires Run(states, acts) && i < |acts| && Boot(states[0], boot) && acts[i] == SetRunnable(e)
    ensures e in states[i].th && states[i].th[e].fork.Stacked?
    ensures var c := states[i].th[e].fork.child;
      var pt := states[i + 1].pt;
      && Runnable(states[i + 1].th, c) && Runnable(states[i + 1].th, e)
      && (Va(c, pn) in pt <==> pn == XSTACK || (pn < LIMIT && pn != PFTEMP && Va(e, pn) in pt))
      && (CanWrite(pt, Va(c, pn)) <==> pn == XSTACK || (pn < LIMIT && pn != PFTEMP && CanWrite(pt, Va(e, pn))))
  {
    hide Inv;
    RunMirrors(states, acts, boot, i);
    var s := states[i];
    assert Enabled(s, acts[i]);
    assert Mirrored(s.pt, e, s.th[e].fork) && MirroredAt(s.pt, e, s.th[e].fork, pn);
    ForkHasChild(s, e);
  }

  lemma ForkHasChild(s: State, e: nat)
    requires Inv(s) && e in s.th && s.th[e].fork != NoFork
    ensures s.th[e].fork.child in s.th && s.th[e].fork.child != e
  {
    var kind :| InvBy(s, kind);
    ChildOf(s.th, e);
  }
}
