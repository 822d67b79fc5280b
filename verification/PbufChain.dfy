/**
 Chains of packet buffers (net/lwip/core/pbuf.c): pbufs linked by `next`, the bytes a
 chain carries and the tot_len invariant of include/lwip/pbuf.h.
 */
module PbufChain {
  import opened Common

  const U16: nat := 0x10000

  datatype Kind = Pool | Ram | Rom | Ref

  /** Pointers are numbers and 0 is NULL; `payload` holds exactly the `len` bytes of the pbuf. */
  datatype Pbuf = Pbuf(next: nat, payload: seq<nat>, tot: nat, ref: nat, kind: Kind)

  type Store = map<nat, Pbuf>

  /** The chain that starts at p; NULL has the empty chain. */
  ghost function ChainOf(ch: map<nat, seq<nat>>, p: nat): seq<nat> {
    if p in ch then ch[p] else []
  }

  /** The next pointer of p is NULL or leads to a live pbuf, and the chain of p goes on with that pbuf's chain. */
  ghost predicate ChainStep(m: Store, ch: map<nat, seq<nat>>, p: nat) {
    && p in m && p in ch && (m[p].next == 0 || m[p].next in m)
    && ch[p] == [p] + ChainOf(ch, m[p].next)
  }

  /** `ch` gives the chain of every live pbuf: next pointers never lead in a circle. */
  ghost predicate Chains(m: Store, ch: map<nat, seq<nat>>) {
    && ch.Keys == m.Keys && 0 !in m
    && (forall p {:trigger ChainStep(m, ch, p)} :: p in m ==> ChainStep(m, ch, p))
  }

  /** Pbuf i of c is live and points at pbuf i + 1, the last one at NULL. */
  ghost predicate LinkStep(m: Store, c: seq<nat>, i: nat) {
    i < |c| && c[i] in m && c[i] != 0 && m[c[i]].next == if i + 1 < |c| then c[i + 1] else 0
  }

  ghost predicate Linked(m: Store, c: seq<nat>) {
    forall i :: 0 <= i < |c| ==> LinkStep(m, c, i)
  }

  /** The tail of a chain is the chain of its head. */
  lemma {:induction false} Tails(m: Store, ch: map<nat, seq<nat>>, p: nat, i: nat)
    requires Chains(m, ch) && p in m && i < |ch[p]|
    ensures ch[p][i] in m && ch[ch[p][i]] == ch[p][i..]
    decreases i
  {
    assert ChainStep(m, ch, p);
    if i > 0 {
      Tails(m, ch, m[p].next, i - 1);
    }
  }

  lemma LinkAt(m: Store, ch: map<nat, seq<nat>>, p: nat, i: nat)
    requires Chains(m, ch) && p in m && i < |ch[p]|
    ensures ch[p][i] in m && ch[p][i] != 0 && m[ch[p][i]].next == if i + 1 < |ch[p]| then ch[p][i + 1] else 0
    ensures ch[p][0] == p && |ch[ch[p][i]]| == |ch[p]| - i
  {
    Tails(m, ch, p, i);
    var q := ch[p][i];
    assert ChainStep(m, ch, p) && ChainStep(m, ch, q);
    if m[q].next != 0 {
      assert ChainStep(m, ch, m[q].next);
      assert ch[p][i..][1] == ch[p][i + 1];
    }
  }

  lemma ChainLinked(m: Store, ch: map<nat, seq<nat>>, p: nat)
    requires Chains(m, ch) && p in m
    ensures |ch[p]| > 0 && ch[p][0] == p && Linked(m, ch[p]) && NoDup(ch[p])
  {
    var c := ch[p];
    assert ChainStep(m, ch, p);
    LinkAt(m, ch, p, 0);
    hide Chains;
    forall i | 0 <= i < |c| ensures LinkStep(m, c, i) {
      LinkAt(m, ch, p, i);
    }
    forall i, j | 0 <= i < j < |c| ensures c[i] != c[j] {
      LinkAt(m, ch, p, i);
      LinkAt(m, ch, p, j);
    }
  }

  // -------------------------------------------------------------------- bytes

  /** The bytes carried by a chain. */
  ghost function Flat(m: Store, c: seq<nat>): seq<nat> {
    if c == [] then [] else (if c[0] in m then m[c[0]].payload else []) + Flat(m, c[1..])
  }

  /** Only the payloads of the chain matter. */
  lemma {:induction false} FlatSame(m: Store, m1: Store, c: seq<nat>)
    requires forall p :: p in c ==> p in m && p in m1 && m1[p].payload == m[p].payload
    ensures Flat(m1, c) == Flat(m, c)
  {
    if c != [] {
      FlatSame(m, m1, c[1..]);
    }
  }

  lemma {:induction false} FlatSplit(m: Store, c: seq<nat>, d: seq<nat>)
    ensures Flat(m, c + d) == Flat(m, c) + Flat(m, d)
  {
    if c == [] {
      assert c + d == d;
    } else {
      assert (c + d)[1..] == c[1..] + d;
      FlatSplit(m, c[1..], d);
    }
  }

  lemma FlatAt(m: Store, c: seq<nat>, i: nat)
    requires i < |c| && c[i] in m
    ensures Flat(m, c) == Flat(m, c[..i]) + (m[c[i]].payload + Flat(m, c[i + 1..]))
    ensures Flat(m, c[i..]) == m[c[i]].payload + Flat(m, c[i + 1..])
  {
    assert c == c[..i] + c[i..];
    FlatSplit(m, c[..i], c[i..]);
    assert c[i..][1..] == c[i + 1..];
  }

  /** The tot_len invariant on a chain: every tot_len is its own length plus the next pbuf's tot_len. */
  ghost predicate TotOk(m: Store, c: seq<nat>) {
    forall i :: 0 <= i < |c| ==> TotStep(m, c, i)
  }

  ghost predicate TotStep(m: Store, c: seq<nat>, i: nat) {
    i < |c| && c[i] in m && m[c[i]].tot < U16 && m[c[i]].tot == |m[c[i]].payload| + TotAt(m, c, i + 1)
  }

  function TotAt(m: Store, c: seq<nat>, i: nat): nat {
    if i < |c| && c[i] in m then m[c[i]].tot else 0
  }

  /** So tot_len is the number of bytes from there to the end. */
  lemma {:induction false} TotIsLength(m: Store, c: seq<nat>, i: nat)
    requires TotOk(m, c) && i <= |c|
    ensures |Flat(m, c[i..])| == TotAt(m, c, i)
    decreases |c| - i
  {
    if i < |c| {
      assert TotStep(m, c, i);
      TotIsLength(m, c, i + 1);
      FlatAt(m, c, i);
    }
  }

  // ------------------------------------------------------------- byte ranges

  /** Bytes [o, o + n) of s, as far as s goes. */
  function Slice(s: seq<nat>, o: nat, n: nat): seq<nat> {
    s[Min(o, |s|)..Min(o + n, |s|)]
  }

  lemma SliceSkips(a: seq<nat>, b: seq<nat>, o: nat, n: nat)
    requires o >= |a|
    ensures Slice(a + b, o, n) == Slice(b, o - |a|, n)
  {
  }

  lemma SliceTakes(a: seq<nat>, b: seq<nat>, o: nat, n: nat, k: nat)
    requires o <= |a| && k == Min(|a| - o, n)
    ensures Slice(a + b, o, n) == a[o..o + k] + Slice(b, 0, n - k)
  {
  }

  function Poked(m: Store, p: nat, o: nat, data: seq<nat>): Store
    requires p in m && o + |data| <= |m[p].payload|
  {
    m[p := m[p].(payload := Splice(m[p].payload, o, data))]
  }

  /** A store into one pbuf of a chain is a store into the chain's bytes. */
  lemma PokedFlat(m: Store, c: seq<nat>, a: nat, o: nat, data: seq<nat>)
    requires a < |c| && (forall i :: 0 <= i < |c| ==> c[i] in m) && o + |data| <= |m[c[a]].payload|
    requires NoDup(c)
    ensures |Flat(m, c[..a])| + o + |data| <= |Flat(m, c)|
    ensures Flat(Poked(m, c[a], o, data), c) == Splice(Flat(m, c), |Flat(m, c[..a])| + o, data)
  {
    hide Flat, Splice;
    var m1 := Poked(m, c[a], o, data);
    FlatAt(m, c, a);
    FlatAt(m1, c, a);
    FlatSame(m, m1, c[..a]);
    FlatSame(m, m1, c[a + 1..]);
    SpliceMiddle(Flat(m, c[..a]), m[c[a]].payload, Flat(m, c[a + 1..]), o, data);
  }

  lemma SpliceMiddle(x: seq<nat>, y: seq<nat>, z: seq<nat>, o: nat, data: seq<nat>)
    requires o + |data| <= |y|
    ensures x + (Splice(y, o, data) + z) == Splice(x + (y + z), |x| + o, data)
  {
  }
}
