/**
 Reference counts of packet buffers (net/lwip/core/pbuf.c): a pbuf's count is the
 number of next pointers to it plus the number of outside holders, and freeing a chain
 walks down it only as far as counts reach zero.
 */
module PbufRefs {
  import opened Common
  import opened PbufChain

  /** The pbufs whose next pointer is p. */
  ghost function Into(m: Store, p: nat): set<nat> {
    set x | x in m && m[x].next == p
  }

  /** Every count is right, except that `owed`, if not NULL, still counts a pointer that is gone. */
  ghost predicate Refs(m: Store, ext: multiset<nat>, owed: nat) {
    && (forall p :: p in m ==> m[p].ref == |Into(m, p)| + ext[p] + if p == owed then 1 else 0)
    && (forall p :: p in m ==> m[p].ref > 0)
    && (forall p :: p in ext ==> p in m)
    && (owed == 0 || owed in m)
  }

  // ------------------------------------------------------------------ freeing

  function Lowered(m: Store, p: nat): Store
    requires p in m && m[p].ref > 0
  {
    m[p := m[p].(ref := m[p].ref - 1)]
  }

  /** pbuf_free on the chain c. */
  ghost function Freed(m: Store, c: seq<nat>): Store {
    if c == [] || c[0] !in m || m[c[0]].ref == 0 then m
    else if m[c[0]].ref > 1 then Lowered(m, c[0])
    else Freed(m - {c[0]}, c[1..])
  }

  /** The number of pbufs it deallocates: the maximal prefix of pbufs with a count of one. */
  ghost function Ones(m: Store, c: seq<nat>): (k: nat)
    ensures k <= |c|
  {
    if c == [] || c[0] !in m || m[c[0]].ref != 1 then 0 else 1 + Ones(m - {c[0]}, c[1..])
  }

  lemma LastPointerGone(m: Store, ext: multiset<nat>, p: nat)
    requires Refs(m, ext, p) && p in m && m[p].ref == 1
    ensures Into(m, p) == {} && ext[p] == 0
  {
  }

  /** The two stores have the same pbufs with the same next pointers. */
  ghost predicate SameNext(m: Store, m1: Store) {
    m1.Keys == m.Keys && forall p :: p in m ==> m1[p].next == m[p].next
  }

  lemma SameNextChains(m: Store, m1: Store, ch: map<nat, seq<nat>>)
    requires SameNext(m, m1) && Chains(m, ch)
    ensures Chains(m1, ch)
  {
    forall p | p in m1 ensures ChainStep(m1, ch, p) {
      assert ChainStep(m, ch, p);
    }
  }

  lemma SameNextInto(m: Store, m1: Store, x: nat)
    requires SameNext(m, m1)
    ensures Into(m1, x) == Into(m, x)
  {
  }

  /** Counts are right again if they are changed together with what they count. */
  lemma SameNextRefs(m: Store, m1: Store, ext: multiset<nat>, owed: nat, ext1: multiset<nat>, owed1: nat)
    requires SameNext(m, m1) && Refs(m, ext, owed) && (owed1 == 0 || owed1 in m1) && forall p :: p in ext1 ==> p in m1
    requires forall p :: p in m ==> m1[p].ref > 0
    requires forall p :: p in m ==>
      m1[p].ref - ext1[p] - (if p == owed1 then 1 else 0) == m[p].ref - ext[p] - (if p == owed then 1 else 0)
    ensures Refs(m1, ext1, owed1)
  {
    hide Into;
    forall p | p in m1 ensures m1[p].ref == |Into(m1, p)| + ext1[p] + if p == owed1 then 1 else 0 {
      SameNextInto(m, m1, p);
    }
  }

  lemma LoweredKeeps(m: Store, ch: map<nat, seq<nat>>, ext: multiset<nat>, p: nat)
    requires Chains(m, ch) && Refs(m, ext, p) && p in m && m[p].ref > 1
    ensures Chains(Lowered(m, p), ch) && Refs(Lowered(m, p), ext, 0)
  {
    assert 0 !in m;
    hide Chains;
    SameNextChains(m, Lowered(m, p), ch);
    SameNextRefs(m, Lowered(m, p), ext, p, ext, 0);
  }

  lemma IntoAfter(m: Store, p: nat, x: nat)
    requires p in m
    ensures Into(m - {p}, x) == Into(m, x) - {p}
    ensures p in Into(m, x) <==> x == m[p].next
  {
  }

  lemma RemovedRefs(m: Store, ext: multiset<nat>, p: nat)
    requires Refs(m, ext, p) && p in m && m[p].ref == 1 && m[p].next != p && (m[p].next == 0 || m[p].next in m)
    ensures Refs(m - {p}, ext, m[p].next)
  {
    hide Into;
    LastPointerGone(m, ext, p);
    forall x | x in m && x != p
      ensures m[x].ref == |Into(m - {p}, x)| + ext[x] + if x == m[p].next then 1 else 0
    {
      IntoAfter(m, p, x);
    }
  }

  lemma RemovedChains(m: Store, ch: map<nat, seq<nat>>, p: nat)
    requires Chains(m, ch) && p in m && Into(m, p) == {}
    ensures Chains(m - {p}, ch - {p})
  {
    forall x | x in m && x != p ensures ChainStep(m - {p}, ch - {p}, x) {
      assert x !in Into(m, p) && ChainStep(m, ch, x);
    }
  }

  lemma NotSelf(m: Store, ch: map<nat, seq<nat>>, p: nat)
    requires Chains(m, ch) && p in m
    ensures m[p].next != p && (m[p].next == 0 || m[p].next in m)
    ensures ch[p] != [] && ch[p][0] == p && ch[p][1..] == ChainOf(ch, m[p].next)
  {
    assert ChainStep(m, ch, p);
    if m[p].next != 0 {
      assert ChainStep(m, ch, m[p].next);
    }
  }

  /** Removing a head leaves the chain of its successor as it was. */
  lemma TailStays(m: Store, ch: map<nat, seq<nat>>, p: nat)
    requires Chains(m, ch) && p in m
    ensures ChainOf(ch - {p}, m[p].next) == ChainOf(ch, m[p].next)
  {
    NotSelf(m, ch, p);
  }

  /** Freeing settles the pointer that is owed, along the whole chain. */
  lemma {:induction false} FreedKeeps(m: Store, ch: map<nat, seq<nat>>, ext: multiset<nat>, p: nat)
    returns (ch1: map<nat, seq<nat>>)
    requires Chains(m, ch) && Refs(m, ext, p)
    ensures Chains(Freed(m, ChainOf(ch, p)), ch1) && Refs(Freed(m, ChainOf(ch, p)), ext, 0)
    ensures forall x :: x in ch1 ==> x in ch && ch1[x] == ch[x]
    decreases |ChainOf(ch, p)|
  {
    if p == 0 {
      ch1 := ch;
    } else {
      NotSelf(m, ch, p);
      if m[p].ref > 1 {
        LoweredKeeps(m, ch, ext, p);
        ch1 := ch;
      } else {
        LastPointerGone(m, ext, p);
        RemovedRefs(m, ext, p);
        RemovedChains(m, ch, p);
        TailStays(m, ch, p);
        ch1 := FreedKeeps(m - {p}, ch - {p}, ext, m[p].next);
      }
    }
  }

  /** The store t is m without the first k pbufs of c, and the next pbuf has one count less. */
  ghost predicate Dropped(m: Store, c: seq<nat>, k: nat, t: Store) {
    && k <= |c|
    && (forall i :: 0 <= i < k ==> c[i] in m && m[c[i]].ref == 1)
    && (k < |c| ==> c[k] in m && m[c[k]].ref > 1)
    && (forall x :: x in t <==> x in m && x !in c[..k])
    && (forall x :: x in t ==>
          t[x] == if k < |c| && x == c[k] && m[x].ref > 0 then m[x].(ref := m[x].ref - 1) else m[x])
  }

  lemma DroppedMore(m: Store, c: seq<nat>, k: nat, t: Store)
    requires c != [] && c[0] in m && m[c[0]].ref == 1 && c[0] !in c[1..] && Dropped(m - {c[0]}, c[1..], k, t)
    ensures Dropped(m, c, k + 1, t)
  {
  }

  /** Exactly the maximal prefix of pbufs with a count of one goes; the pbuf after it loses one count. */
  lemma {:induction false} FreedExact(m: Store, c: seq<nat>)
    requires NoDup(c) && forall i :: 0 <= i < |c| ==> c[i] in m && m[c[i]].ref > 0
    ensures Dropped(m, c, Ones(m, c), Freed(m, c))
  {
    if c != [] && m[c[0]].ref == 1 {
      var m1, d := m - {c[0]}, c[1..];
      forall i | 0 <= i < |d| ensures d[i] in m1 && m1[d[i]].ref > 0 {
        assert c[i + 1] != c[0];
      }
      forall i, j | 0 <= i < j < |d| ensures d[i] != d[j] {
        assert c[i + 1] != c[j + 1];
      }
      hide Dropped;
      FreedExact(m1, d);
      DroppedMore(m, c, Ones(m1, d), Freed(m1, d));
    }
  }

  // ------------------------------------------------------ changing one pointer

  function SetNext(m: Store, q: nat, v: nat): Store
    requires q in m
  {
    m[q := m[q].(next := v)]
  }

  lemma IntoRelinked(m: Store, q: nat, v: nat, x: nat)
    requires q in m
    ensures Into(SetNext(m, q, v), x) == if x == v then Into(m, x) + {q} else Into(m, x) - {q}
    ensures q in Into(m, x) <==> x == m[q].next
  {
  }

  /** Cutting a next pointer leaves the pbuf it led to with one count too many. */
  lemma UnlinkRefs(m: Store, ext: multiset<nat>, q: nat)
    requires Refs(m, ext, 0) && q in m && m[q].next in m && 0 !in m
    ensures Refs(SetNext(m, q, 0), ext, m[q].next)
  {
    hide Into;
    var m1 := SetNext(m, q, 0);
    forall x | x in m1 ensures m1[x].ref == |Into(m1, x)| + ext[x] + if x == m[q].next then 1 else 0 {
      IntoRelinked(m, q, 0, x);
    }
  }

  /** A holder of t gives its count to the next pointer of q. */
  lemma LinkRefs(m: Store, ext: multiset<nat>, q: nat, t: nat)
    requires Refs(m, ext, 0) && q in m && m[q].next == 0 && t in m && t in ext && 0 !in m
    ensures Refs(SetNext(m, q, t), ext - multiset{t}, 0)
  {
    hide Into;
    var m1 := SetNext(m, q, t);
    forall x | x in m1 ensures m1[x].ref == |Into(m1, x)| + (ext - multiset{t})[x] {
      IntoRelinked(m, q, t, x);
    }
  }

  ghost function CutAfter(ch: map<nat, seq<nat>>, q: nat): map<nat, seq<nat>> {
    map x | x in ch :: CutChainOf(ch, q, x)
  }

  /** The chains that end in q go on with the chain of t. */
  ghost function Joined(ch: map<nat, seq<nat>>, q: nat, t: nat): map<nat, seq<nat>> {
    map x | x in ch :: if q in ch[x] then ch[x] + ChainOf(ch, t) else ch[x]
  }

  lemma Passes(m: Store, ch: map<nat, seq<nat>>, x: nat, q: nat)
    requires Chains(m, ch) && x in m && q in m && q in ch[x]
    ensures |ch[q]| <= |ch[x]| && ch[x][|ch[x]| - |ch[q]|..] == ch[q]
    ensures x != q ==> m[x].next in m && q in ch[m[x].next] && |ch[q]| < |ch[x]|
  {
    var i :| 0 <= i < |ch[x]| && ch[x][i] == q;
    Tails(m, ch, x, i);
    if x != q {
      NotSelf(m, ch, x);
      assert ch[x][1..][i - 1] == q;
    }
  }

  lemma SelfPasses(m: Store, ch: map<nat, seq<nat>>, x: nat, q: nat)
    requires Chains(m, ch) && x in m && q in m && m[x].next in m && q in ch[m[x].next]
    ensures q in ch[x]
  {
    NotSelf(m, ch, x);
  }

  /** The chain of x, cut after q. */
  ghost function CutChainOf(ch: map<nat, seq<nat>>, q: nat, x: nat): seq<nat>
    requires x in ch
  {
    if q in ch[x] && q in ch && 0 < |ch[q]| <= |ch[x]| then ch[x][..|ch[x]| - |ch[q]| + 1] else ch[x]
  }

  lemma PrefixStep(x: nat, s: seq<nat>, k: nat)
    requires k <= |s|
    ensures ([x] + s)[..k + 1] == [x] + s[..k]
  {
  }

  /** Cutting commutes with taking the first pbuf off. */
  lemma CutStep(m: Store, ch: map<nat, seq<nat>>, q: nat, x: nat)
    requires Chains(m, ch) && q in m && x in m
    ensures x in ch && (m[x].next == 0 || m[x].next in ch)
    ensures x == q ==> CutChainOf(ch, q, x) == [x]
    ensures x != q ==> CutChainOf(ch, q, x) == [x] + if m[x].next == 0 then [] else CutChainOf(ch, q, m[x].next)
  {
    NotSelf(m, ch, x);
    var n := m[x].next;
    assert ch[x] == [x] + ChainOf(ch, n);
    if q in ch[x] {
      Passes(m, ch, x, q);
      NotSelf(m, ch, q);
      if x != q {
        Passes(m, ch, n, q);
        hide Chains;
        PrefixStep(x, ch[n], |ch[n]| - |ch[q]| + 1);
      }
    } else if n != 0 && q in ch[n] {
      SelfPasses(m, ch, x, q);
    }
  }

  lemma UnlinkChains(m: Store, ch: map<nat, seq<nat>>, q: nat)
    requires Chains(m, ch) && q in m
    ensures Chains(SetNext(m, q, 0), CutAfter(ch, q))
  {
    forall x | x in m ensures ChainStep(SetNext(m, q, 0), CutAfter(ch, q), x) {
      CutStep(m, ch, q, x);
      NotSelf(m, ch, x);
      hide Chains, CutChainOf;
    }
  }

  lemma JoinStep(m: Store, ch: map<nat, seq<nat>>, q: nat, t: nat, x: nat)
    requires Chains(m, ch) && q in m && t in m && m[q].next == 0 && q !in ch[t] && x in m
    ensures ChainStep(SetNext(m, q, t), Joined(ch, q, t), x)
  {
    NotSelf(m, ch, x);
    if q in ch[x] {
      Passes(m, ch, x, q);
    } else if m[x].next != 0 && q in ch[m[x].next] {
      SelfPasses(m, ch, x, q);
    }
  }

  lemma LinkChains(m: Store, ch: map<nat, seq<nat>>, q: nat, t: nat)
    requires Chains(m, ch) && q in m && t in m && m[q].next == 0 && q !in ch[t]
    ensures Chains(SetNext(m, q, t), Joined(ch, q, t))
  {
    forall x | x in m ensures ChainStep(SetNext(m, q, t), Joined(ch, q, t), x) {
      JoinStep(m, ch, q, t, x);
    }
  }

  // --------------------------------------------------------------- operations

  /** Addition in 16 bits. */
  function Add16(a: nat, b: nat): nat {
    (a + b) % U16
  }

  /** tot_len of every pbuf of c grows by n, in 16 bits. */
  ghost function Grown(m: Store, c: seq<nat>, n: nat): Store {
    if c == [] then m
    else Grown(if c[0] in m then m[c[0] := m[c[0]].(tot := Add16(m[c[0]].tot, n))] else m, c[1..], n)
  }

  lemma {:induction false} GrownIs(m: Store, c: seq<nat>, n: nat)
    requires NoDup(c)
    ensures SameNext(m, Grown(m, c, n))
    ensures forall p :: p in m ==>
      Grown(m, c, n)[p] == if p in c then m[p].(tot := Add16(m[p].tot, n)) else m[p]
  {
    hide Add16;
    if c != [] {
      var m1 := if c[0] in m then m[c[0] := m[c[0]].(tot := Add16(m[c[0]].tot, n))] else m;
      forall i, j | 0 <= i < j < |c[1..]| ensures c[1..][i] != c[1..][j] {
        assert c[i + 1] != c[j + 1];
      }
      GrownIs(m1, c[1..], n);
      assert c[0] !in c[1..];
    }
  }

  function Raised(m: Store, p: nat): Store
    requires p in m
  {
    m[p := m[p].(ref := m[p].ref + 1)]
  }

  /** pbuf_cat of the chain c with the pbuf t. */
  ghost function Catted(m: Store, c: seq<nat>, t: nat): Store
    requires c != [] && t in m && c[|c| - 1] in Grown(m, c, m[t].tot)
  {
    SetNext(Grown(m, c, m[t].tot), c[|c| - 1], t)
  }

  /** Subtraction in 16 bits. */
  function Sub16(a: nat, b: nat): nat {
    (a + U16 - b % U16) % U16
  }

  /** What pbuf_dechain does before it frees the rest. */
  function Decoupled(m: Store, p: nat): Store
    requires p in m && m[p].next in m
  {
    var q := m[p].next;
    var m1 := m[q := m[q].(tot := Sub16(m[p].tot, |m[p].payload|))];
    m1[p := m[p].(next := 0, tot := |m[p].payload|)]
  }

  datatype Op =
    | New(p: nat, pbuf: Pbuf) | AddRef(p: nat) | Cat(h: nat, t: nat) | Chain(h: nat, t: nat)
    | Free(p: nat) | Dechain(p: nat)

  /** What the interface asks of callers: they hold what they give away, and never chain a pbuf to itself. */
  ghost predicate Legal(m: Store, ch: map<nat, seq<nat>>, ext: multiset<nat>, op: Op)
    requires Chains(m, ch)
  {
    match op
    case New(p, b) => p != 0 && p !in m && b.next == 0 && b.ref == 1
    case AddRef(p) => p in m
    case Cat(h, t) => h in m && t in m && t in ext && forall x :: x in ch[h] ==> x !in ch[t]
    case Chain(h, t) => h in m && t in m && t in ext && forall x :: x in ch[h] ==> x !in ch[t]
    case Free(p) => p in m && p in ext
    case Dechain(p) => p in m
  }

  ghost predicate Inv(m: Store, ext: multiset<nat>) {
    exists ch :: Chains(m, ch) && Refs(m, ext, 0)
  }

  lemma NewInto(m: Store, ch: map<nat, seq<nat>>, p: nat, b: Pbuf, x: nat)
    requires Chains(m, ch) && p != 0 && p !in m && b.next == 0 && x in m[p := b]
    ensures Into(m[p := b], x) == if x == p then {} else Into(m, x)
  {
    assert 0 !in m;
    forall y | y in m ensures m[y].next != p {
      assert ChainStep(m, ch, y);
    }
  }

  lemma NewRefs(m: Store, ch: map<nat, seq<nat>>, ext: multiset<nat>, p: nat, b: Pbuf)
    requires Chains(m, ch) && Refs(m, ext, 0) && p != 0 && p !in m && b.next == 0 && b.ref == 1
    ensures Refs(m[p := b], ext + multiset{p}, 0)
  {
    hide Into, Chains;
    var m1 := m[p := b];
    assert ext[p] == 0 && p !in ext;
    forall x | x in m1 ensures m1[x].ref == |Into(m1, x)| + (ext + multiset{p})[x] + if x == 0 then 1 else 0 {
      NewInto(m, ch, p, b, x);
      if x != p {
        NotNull(m, ch, x);
      }
    }
  }

  lemma NotNull(m: Store, ch: map<nat, seq<nat>>, x: nat)
    requires Chains(m, ch) && x in m
    ensures x != 0
  {
  }

  lemma NewKeeps(m: Store, ch: map<nat, seq<nat>>, ext: multiset<nat>, p: nat, b: Pbuf)
    requires Chains(m, ch) && Refs(m, ext, 0) && p != 0 && p !in m && b.next == 0 && b.ref == 1
    ensures Chains(m[p := b], ch[p := [p]]) && Refs(m[p := b], ext + multiset{p}, 0)
  {
    hide Refs;
    NewRefs(m, ch, ext, p, b);
    var m1, ch1 := m[p := b], ch[p := [p]];
    forall x | x in m1 ensures ChainStep(m1, ch1, x) {
      assert x != p ==> ChainStep(m, ch, x);
    }
  }

  lemma AddRefKeeps(m: Store, ch: map<nat, seq<nat>>, ext: multiset<nat>, p: nat)
    requires Chains(m, ch) && Refs(m, ext, 0) && p in m
    ensures Chains(Raised(m, p), ch) && Refs(Raised(m, p), ext + multiset{p}, 0)
  {
    hide Chains, Into;
    NotNull(m, ch, p);
    SameNextChains(m, Raised(m, p), ch);
    SameNextRefs(m, Raised(m, p), ext, 0, ext + multiset{p}, 0);
  }

  lemma CatKeeps(m: Store, ch: map<nat, seq<nat>>, ext: multiset<nat>, h: nat, t: nat)
    requires Chains(m, ch) && Refs(m, ext, 0) && h in m && t in m && t in ext && forall x :: x in ch[h] ==> x !in ch[t]
    ensures var c := ch[h];
      && c != [] && c[|c| - 1] in Grown(m, c, m[t].tot)
      && Chains(Catted(m, c, t), Joined(ch, c[|c| - 1], t)) && Refs(Catted(m, c, t), ext - multiset{t}, 0)
  {
    var c := ch[h];
    ChainLinked(m, ch, h);
    assert 0 !in m;
    hide Chains;
    var m1, q := Grown(m, c, m[t].tot), c[|c| - 1];
    GrownIs(m, c, m[t].tot);
    assert LinkStep(m, c, |c| - 1);
    SameNextChains(m, m1, ch);
    SameNextRefs(m, m1, ext, 0, ext, 0);
    LinkChains(m1, ch, q, t);
    LinkRefs(m1, ext, q, t);
  }

  lemma SameRefs(m: Store, m1: Store, ext: multiset<nat>, owed: nat)
    requires SameNext(m, m1) && Refs(m, ext, owed) && forall p :: p in m ==> m1[p].ref == m[p].ref
    ensures Refs(m1, ext, owed)
  {
    SameNextRefs(m, m1, ext, owed, ext, owed);
  }

  lemma DecoupledSame(m: Store, p: nat)
    requires p in m && m[p].next in m && m[p].next != p
    ensures SameNext(SetNext(m, p, 0), Decoupled(m, p))
    ensures forall x :: x in m ==> Decoupled(m, p)[x].ref == m[x].ref
  {
  }

  lemma DecoupledKeeps(m: Store, ch: map<nat, seq<nat>>, ext: multiset<nat>, p: nat)
    requires Chains(m, ch) && Refs(m, ext, 0) && p in m && m[p].next in m
    ensures Chains(Decoupled(m, p), CutAfter(ch, p)) && Refs(Decoupled(m, p), ext, m[p].next)
  {
    NotSelf(m, ch, p);
    assert 0 !in m;
    UnlinkChains(m, ch, p);
    UnlinkRefs(m, ext, p);
    DecoupledSame(m, p);
    hide Chains, CutAfter, Refs, Decoupled, SameNext;
    SameNextChains(SetNext(m, p, 0), Decoupled(m, p), CutAfter(ch, p));
    SameRefs(SetNext(m, p, 0), Decoupled(m, p), ext, m[p].next);
  }

  /** A holder that gives p up leaves its count owed. */
  lemma GiveUp(m: Store, ext: multiset<nat>, p: nat)
    requires Refs(m, ext, 0) && p in m && p in ext && 0 !in m
    ensures Refs(m, ext - multiset{p}, p)
  {
  }

  /** One operation of the interface, with the holders it leaves. */
  ghost predicate Step(m: Store, ext: multiset<nat>, op: Op, m1: Store, ext1: multiset<nat>) {
    exists ch :: Chains(m, ch) && Legal(m, ch, ext, op) && StepBy(m, ch, ext, op, m1, ext1)
  }

  ghost predicate StepBy(m: Store, ch: map<nat, seq<nat>>, ext: multiset<nat>, op: Op, m1: Store, ext1: multiset<nat>)
    requires Chains(m, ch) && Legal(m, ch, ext, op)
  {
    match op
    case New(p, b) => m1 == m[p := b] && ext1 == ext + multiset{p}
    case AddRef(p) => m1 == Raised(m, p) && ext1 == ext + multiset{p}
    case Cat(h, t) =>
      && ch[h] != [] && ch[h][|ch[h]| - 1] in Grown(m, ch[h], m[t].tot)
      && m1 == Catted(m, ch[h], t) && ext1 == ext - multiset{t}
    case Chain(h, t) =>
      ch[h] != [] && ch[h][|ch[h]| - 1] in Grown(m, ch[h], m[t].tot) && t in Catted(m, ch[h], t)
      && m1 == Raised(Catted(m, ch[h], t), t) && ext1 == ext - multiset{t} + multiset{t}
    case Free(p) => m1 == Freed(m, ch[p]) && ext1 == ext - multiset{p}
    case Dechain(p) =>
      ext1 == ext && m1 == if m[p].next in m then Freed(Decoupled(m, p), ChainOf(CutAfter(ch, p), m[p].next)) else m
  }

  lemma ChainKeeps(m: Store, ch: map<nat, seq<nat>>, ext: multiset<nat>, h: nat, t: nat)
    requires Chains(m, ch) && Refs(m, ext, 0) && h in m && t in m && t in ext && forall x :: x in ch[h] ==> x !in ch[t]
    requires ch[h] != [] && ch[h][|ch[h]| - 1] in Grown(m, ch[h], m[t].tot) && t in Catted(m, ch[h], t)
    ensures Inv(Raised(Catted(m, ch[h], t), t), ext - multiset{t} + multiset{t})
  {
    hide Refs, Grown, Joined;
    CatKeeps(m, ch, ext, h, t);
    AddRefKeeps(Catted(m, ch[h], t), Joined(ch, ch[h][|ch[h]| - 1], t), ext - multiset{t}, t);
  }

  lemma FreeKeeps(m: Store, ch: map<nat, seq<nat>>, ext: multiset<nat>, p: nat)
    requires Chains(m, ch) && Refs(m, ext, 0) && p in m && p in ext
    ensures Inv(Freed(m, ch[p]), ext - multiset{p})
  {
    hide Refs, Freed;
    assert 0 !in m;
    GiveUp(m, ext, p);
    var ch1 := FreedKeeps(m, ch, ext - multiset{p}, p);
  }

  lemma DechainKeeps(m: Store, ch: map<nat, seq<nat>>, ext: multiset<nat>, p: nat)
    requires Chains(m, ch) && Refs(m, ext, 0) && p in m && m[p].next in m
    ensures Inv(Freed(Decoupled(m, p), ChainOf(CutAfter(ch, p), m[p].next)), ext)
  {
    hide Chains, Refs, Freed, CutAfter, Decoupled;
    DecoupledKeeps(m, ch, ext, p);
    var ch1 := FreedKeeps(Decoupled(m, p), CutAfter(ch, p), ext, m[p].next);
  }

  lemma StepKeeps(m: Store, ext: multiset<nat>, op: Op, m1: Store, ext1: multiset<nat>)
    requires Inv(m, ext) && Step(m, ext, op, m1, ext1)
    ensures Inv(m1, ext1)
  {
    hide Chains, Refs, Grown, Joined, CutAfter, Freed, Decoupled, Raised, Catted;
    var ch :| Chains(m, ch) && Legal(m, ch, ext, op) && StepBy(m, ch, ext, op, m1, ext1);
    match op {
      case New(p, b) => NewKeeps(m, ch, ext, p, b);
      case AddRef(p) => AddRefKeeps(m, ch, ext, p);
      case Cat(h, t) => CatKeeps(m, ch, ext, h, t);
      case Chain(h, t) => ChainKeeps(m, ch, ext, h, t);
      case Free(p) => FreeKeeps(m, ch, ext, p);
      case Dechain(p) =>
        if m[p].next in m {
          DechainKeeps(m, ch, ext, p);
        }
    }
  }

  /** In every run each live pbuf's count is the number of pointers to it, and chains stay chains. */
  lemma {:induction false} RunKeepsRefs(ms: seq<Store>, exts: seq<multiset<nat>>, ops: seq<Op>, i: nat)
    requires |ms| == |exts| == |ops| + 1 && i <= |ops| && Inv(ms[0], exts[0])
    requires forall j :: 0 <= j < |ops| ==> Step(ms[j], exts[j], ops[j], ms[j + 1], exts[j + 1])
    ensures Inv(ms[i], exts[i])
  {
    hide Inv, Step;
    if i > 0 {
      RunKeepsRefs(ms, exts, ops, i - 1);
      StepKeeps(ms[i - 1], exts[i - 1], ops[i - 1], ms[i], exts[i]);
    }
  }

  // -------------------------------------------------- what joined chains carry

  ghost predicate Disjoint(c: seq<nat>, d: seq<nat>) {
    forall x :: x in c ==> x !in d
  }

  /** Pbuf x of the head chain c has a tot_len larger by n, in 16 bits; any other pbuf has the same one. */
  ghost predicate GrewAt(m: Store, m1: Store, c: seq<nat>, n: nat, x: nat) {
    && x in m && x in m1 && m1[x].payload == m[x].payload && m1[x].ref == m[x].ref
    && m1[x].tot == if x in c then Add16(m[x].tot, n) else m[x].tot
  }

  lemma CattedIs(m: Store, c: seq<nat>, d: seq<nat>, t: nat)
    requires Linked(m, c) && NoDup(c) && c != [] && d != [] && d[0] == t && Disjoint(c, d) && t in m
    ensures c[|c| - 1] in Grown(m, c, m[t].tot)
    ensures Catted(m, c, t).Keys == m.Keys && forall x :: x in m ==> GrewAt(m, Catted(m, c, t), c, m[t].tot, x)
  {
    assert LinkStep(m, c, |c| - 1);
    hide Add16, Grown, Linked, Disjoint;
    GrownIs(m, c, m[t].tot);
  }

  /** The joined chain carries the bytes of both. */
  lemma CatFlat(m: Store, c: seq<nat>, d: seq<nat>, t: nat)
    requires Linked(m, c) && Linked(m, d) && NoDup(c) && c != [] && d != [] && d[0] == t && Disjoint(c, d)
    ensures t in m && c[|c| - 1] in Grown(m, c, m[t].tot)
    ensures Flat(Catted(m, c, t), c + d) == Flat(m, c) + Flat(m, d)
  {
    hide Catted, Grown, Add16;
    assert LinkStep(m, d, 0);
    CattedIs(m, c, d, t);
    LinkedIn(m, c);
    LinkedIn(m, d);
    FlatSame(m, Catted(m, c, t), c);
    FlatSame(m, Catted(m, c, t), d);
    FlatSplit(Catted(m, c, t), c, d);
  }

  lemma LinkedIn(m: Store, c: seq<nat>)
    requires Linked(m, c)
    ensures forall x :: x in c ==> x in m
  {
    forall x | x in c ensures x in m {
      var i :| 0 <= i < |c| && c[i] == x;
      assert LinkStep(m, c, i);
    }
  }

  /** tot_len never grows along a chain. */
  lemma {:induction false} TotShrinks(m: Store, c: seq<nat>, i: nat)
    requires TotOk(m, c) && i < |c|
    ensures TotAt(m, c, i) <= TotAt(m, c, 0) && c[i] in m
  {
    assert TotStep(m, c, i);
    if i > 0 {
      assert TotStep(m, c, i - 1);
      TotShrinks(m, c, i - 1);
    }
  }

  /** The tot_len invariant survives pbuf_cat if and only if the joined length fits in 16 bits. */
  lemma CatTotIff(m: Store, c: seq<nat>, d: seq<nat>, t: nat)
    requires Linked(m, c) && Linked(m, d) && NoDup(c) && c != [] && d != [] && d[0] == t && Disjoint(c, d)
    requires TotOk(m, c) && TotOk(m, d)
    ensures t in m && c[|c| - 1] in Grown(m, c, m[t].tot)
    ensures TotOk(Catted(m, c, t), c + d) <==> TotAt(m, c, 0) + TotAt(m, d, 0) < U16
  {
    hide Catted, Grown, Flat, Add16;
    assert LinkStep(m, d, 0);
    CattedIs(m, c, d, t);
    CatFlat(m, c, d, t);
    var m1, e := Catted(m, c, t), c + d;
    if TotOk(m1, e) {
      TotIsLength(m1, e, 0);
      TotIsLength(m, c, 0);
      TotIsLength(m, d, 0);
      assert c[0..] == c && d[0..] == d && e[0..] == e;
      assert TotStep(m1, e, 0);
    }
    if TotAt(m, c, 0) + TotAt(m, d, 0) < U16 {
      forall i | 0 <= i < |e| ensures TotStep(m1, e, i) {
        CatTotStep(m, c, d, t, i);
      }
    }
  }

  function RomPbuf(n: nat): Pbuf {
    Pbuf(0, seq(n, i => 0), n, 1, Rom)
  }

  /** Two pbufs of 40000 bytes that pbuf_cat joins to a chain with a wrong tot_len. */
  lemma CatOverflows() returns (m: Store)
    ensures Inv(m, multiset{1, 2}) && Linked(m, [1]) && Linked(m, [2]) && TotOk(m, [1]) && TotOk(m, [2])
    ensures 2 in m && 1 in Grown(m, [1], m[2].tot) && !TotOk(Catted(m, [1], 2), [1] + [2])
  {
    m := map[1 := RomPbuf(40000), 2 := RomPbuf(40000)];
    TwoPbufs(m);
    hide RomPbuf, Inv, Grown, Catted, Linked, TotOk;
    CatTotIff(m, [1], [2], 2);
  }

  lemma TwoPbufs(m: Store)
    requires m == map[1 := RomPbuf(40000), 2 := RomPbuf(40000)]
    ensures Inv(m, multiset{1, 2}) && Linked(m, [1]) && Linked(m, [2]) && TotOk(m, [1]) && TotOk(m, [2])
    ensures TotAt(m, [1], 0) == TotAt(m, [2], 0) == 40000
  {
    var ch := map[1 := [1], 2 := [2]];
    assert ChainStep(m, ch, 1) && ChainStep(m, ch, 2);
    assert Into(m, 1) == {} && Into(m, 2) == {};
    assert Chains(m, ch) && Refs(m, multiset{1, 2}, 0);
    assert LinkStep(m, [1], 0) && LinkStep(m, [2], 0) && TotStep(m, [1], 0) && TotStep(m, [2], 0);
  }

  lemma Add16Fits(a: nat, b: nat)
    requires a + b < U16
    ensures Add16(a, b) == a + b
  {
  }

  lemma CatTotStep(m: Store, c: seq<nat>, d: seq<nat>, t: nat, i: nat)
    requires Linked(m, c) && Linked(m, d) && NoDup(c) && c != [] && d != [] && d[0] == t && Disjoint(c, d)
    requires TotOk(m, c) && TotOk(m, d) && TotAt(m, c, 0) + TotAt(m, d, 0) < U16 && i < |c + d|
    ensures t in m && c[|c| - 1] in Grown(m, c, m[t].tot)
    ensures TotStep(Catted(m, c, t), c + d, i)
  {
    assert LinkStep(m, d, 0);
    CattedIs(m, c, d, t);
    hide Catted, Grown, Linked, NoDup;
    if i < |c| {
      CatTotHead(m, Catted(m, c, t), c, d, i);
    } else {
      CatTotTail(m, Catted(m, c, t), c, d, i - |c|);
    }
  }

  lemma CatTotHead(m: Store, m1: Store, c: seq<nat>, d: seq<nat>, i: nat)
    requires d != [] && Disjoint(c, d) && TotOk(m, c) && TotOk(m, d) && TotAt(m, c, 0) + TotAt(m, d, 0) < U16 && i < |c|
    requires forall x :: x in m ==> GrewAt(m, m1, c, TotAt(m, d, 0), x)
    ensures TotStep(m1, c + d, i)
  {
    hide Add16, Disjoint;
    var n := TotAt(m, d, 0);
    assert TotStep(m, c, i) && GrewAt(m, m1, c, n, c[i]);
    TotShrinks(m, c, i);
    Add16Fits(m[c[i]].tot, n);
    if i + 1 < |c| {
      TotShrinks(m, c, i + 1);
      assert GrewAt(m, m1, c, n, c[i + 1]);
      Add16Fits(m[c[i + 1]].tot, n);
    } else {
      assert TotStep(m, d, 0) && GrewAt(m, m1, c, n, d[0]);
      NotInHead(c, d, 0);
    }
  }

  lemma NotInHead(c: seq<nat>, d: seq<nat>, i: nat)
    requires Disjoint(c, d) && i < |d|
    ensures d[i] !in c
  {
  }

  lemma CatTotTail(m: Store, m1: Store, c: seq<nat>, d: seq<nat>, i: nat)
    requires d != [] && Disjoint(c, d) && TotOk(m, d) && i < |d|
    requires forall x :: x in m ==> GrewAt(m, m1, c, TotAt(m, d, 0), x)
    ensures TotStep(m1, c + d, |c| + i)
  {
    hide Add16, Disjoint;
    var n := TotAt(m, d, 0);
    assert TotStep(m, d, i) && GrewAt(m, m1, c, n, d[i]);
    NotInHead(c, d, i);
    if i + 1 < |d| {
      assert TotStep(m, d, i + 1) && GrewAt(m, m1, c, n, d[i + 1]);
      NotInHead(c, d, i + 1);
    }
  }
}
