/** What the copying and shrinking loops of net/lwip/core/pbuf.c do to the bytes of chains. */
module PbufData {
  import opened Common
  import opened PbufChain
  import opened PbufRefs
  import opened CopyLengths

  // ---------------------------------------------------------------- pbuf_copy

  /** The lengths of the pbufs of c. */
  ghost function Lengths(m: Store, c: seq<nat>): (r: seq<nat>)
    ensures |r| == |c|
  {
    seq(|c|, i requires 0 <= i < |c| => if c[i] in m then |m[c[i]].payload| else 0)
  }

  lemma {:induction false} LengthBefore(m: Store, c: seq<nat>, a: nat)
    requires a <= |c| && forall i :: 0 <= i < |c| ==> c[i] in m
    ensures Before(Lengths(m, c), a) == |Flat(m, c[..a])|
  {
    if a == 0 {
      assert c[..0] == [];
    } else {
      LengthBefore(m, c, a - 1);
      FlatPrefix(m, c, a - 1);
    }
  }

  /** The test for packet queues, in lengths. */
  lemma {:induction false} QueueHere(m: Store, c: seq<nat>, i: nat)
    requires TotOk(m, c) && Linked(m, c) && i < |c|
    ensures c[i] in m
    ensures m[c[i]].tot == |m[c[i]].payload| <==> forall j :: i < j < |c| ==> Lengths(m, c)[j] == 0
    ensures m[c[i]].next != 0 <==> i + 1 < |c|
    ensures m[c[i]].tot == 0 <==> forall j :: i <= j < |c| ==> Lengths(m, c)[j] == 0
    decreases |c| - i
  {
    assert TotStep(m, c, i) && LinkStep(m, c, i);
    assert Lengths(m, c)[i] == |m[c[i]].payload|;
    if i + 1 < |c| {
      QueueHere(m, c, i + 1);
      assert LinkStep(m, c, i + 1);
    }
    hide TotOk, Linked, Lengths;
  }

  /** m1 differs from m only in the bytes of the pbufs of c. */
  ghost predicate Refilled(m: Store, m1: Store, c: seq<nat>) {
    && m1.Keys == m.Keys
    && (forall x :: x in m && x !in c ==> m1[x] == m[x])
    && (forall x :: x in m ==> m1[x] == m[x].(payload := m1[x].payload) && |m1[x].payload| == |m[x].payload|)
  }

  lemma PokedRefills(m: Store, m1: Store, c: seq<nat>, p: nat, o: nat, data: seq<nat>)
    requires Refilled(m, m1, c) && p in c && p in m1 && o + |data| <= |m1[p].payload|
    ensures Refilled(m, Poked(m1, p, o, data), c)
  {
  }

  /** A position in a chain: offset o in pbuf a, at its start if it is empty, or the end. */
  ghost predicate PositionIs(m: Store, c: seq<nat>, a: nat, o: nat, k: nat) {
    && a <= |c| && k == |Flat(m, c[..a])| + o
    && (a < |c| ==> c[a] in m)
    && (o > 0 ==> a < |c| && o < |m[c[a]].payload|)
  }

  /** Moving n bytes on, to the next pbuf if this one is used up. */
  lemma PositionMoves(m: Store, c: seq<nat>, a: nat, o: nat, k: nat, n: nat)
    requires PositionIs(m, c, a, o, k) && a < |c| && o + n <= |m[c[a]].payload|
    requires a + 1 < |c| ==> c[a + 1] in m
    ensures if o + n == |m[c[a]].payload| then PositionIs(m, c, a + 1, 0, k + n) else PositionIs(m, c, a, o + n, k + n)
  {
    FlatPrefix(m, c, a);
  }

  lemma FlatPrefix(m: Store, c: seq<nat>, a: nat)
    requires a < |c| && c[a] in m
    ensures Flat(m, c[..a + 1]) == Flat(m, c[..a]) + m[c[a]].payload
  {
    assert c[..a + 1] == c[..a] + [c[a]];
    FlatSplit(m, c[..a], [c[a]]);
    assert Flat(m, [c[a]]) == m[c[a]].payload + Flat(m, []);
  }

  lemma PositionData(m: Store, c: seq<nat>, a: nat, o: nat, k: nat, n: nat)
    requires PositionIs(m, c, a, o, k) && a < |c| && o + n <= |m[c[a]].payload|
    ensures k + n <= |Flat(m, c)| && m[c[a]].payload[o..o + n] == Flat(m, c)[k..k + n]
  {
    FlatAt(m, c, a);
  }

  /** The lengths of a refilled chain are the old ones, so positions are too. */
  lemma {:induction false} RefilledLength(m: Store, m1: Store, c: seq<nat>, d: seq<nat>)
    requires Refilled(m, m1, c)
    ensures |Flat(m1, d)| == |Flat(m, d)|
  {
    if d != [] {
      RefilledLength(m, m1, c, d[1..]);
    }
  }

  /** The state of pbuf_copy after k bytes. */
  ghost predicate CopiedTo(m0: Store, m: Store, to: seq<nat>, from: seq<nat>, k: nat) {
    && Refilled(m0, m, to) && k <= |Flat(m0, from)| <= |Flat(m0, to)|
    && Flat(m, to) == Flat(m0, from)[..k] + Flat(m0, to)[k..]
  }

  lemma CopiesMore(m0: Store, m: Store, to: seq<nat>, from: seq<nat>, k: nat, a: nat, ot: nat, b: nat, of: nat, n: nat)
    requires CopiedTo(m0, m, to, from, k) && PositionIs(m0, to, a, ot, k) && PositionIs(m0, from, b, of, k)
    requires a < |to| && b < |from| && NoDup(to) && Disjoint(from, to) && forall i :: 0 <= i < |to| ==> to[i] in m
    requires ot + n <= |m0[to[a]].payload| && of + n <= |m0[from[b]].payload|
    ensures to[a] in m && from[b] in m && |m[to[a]].payload| == |m0[to[a]].payload| && m[from[b]] == m0[from[b]]
    ensures CopiedTo(m0, Poked(m, to[a], ot, m[from[b]].payload[of..of + n]), to, from, k + n)
  {
    hide Flat, NoDup, Poked, Splice;
    PositionData(m0, from, b, of, k, n);
    RefilledLength(m0, m, to, to[..a]);
    assert from[b] in from && to[a] in to;
    var data := m[from[b]].payload[of..of + n];
    PokedFlat(m, to, a, ot, data);
    PokedRefills(m0, m, to, to[a], ot, data);
    hide Refilled, Disjoint, PositionIs;
    SpliceNext(Flat(m0, from), Flat(m0, to), k, n);
  }

  lemma SpliceNext(f: seq<nat>, t: seq<nat>, k: nat, n: nat)
    requires k + n <= |f| <= |t|
    ensures Splice(f[..k] + t[k..], k, f[k..k + n]) == f[..k + n] + t[k + n..]
  {
  }

  // ------------------------------------------------------------- pbuf_realloc

  /** The first k pbufs of c have a tot_len smaller by d. */
  ghost predicate Trimmed(m0: Store, m: Store, c: seq<nat>, k: nat, d: nat) {
    && k <= |c| && m.Keys == m0.Keys
    && (forall x :: x in m0 && x !in c[..k] ==> m[x] == m0[x])
    && (forall x :: x in m0 && x in c[..k] ==> m0[x].tot >= d && m[x] == m0[x].(tot := m0[x].tot - d))
  }

  /** 16-bit addition of a negative number. */
  lemma GrowIsTrim(tot: nat, newLen: nat, head: nat)
    requires newLen < head < U16 && head - newLen <= tot < U16
    ensures Add16(tot, U16 + newLen - head) == tot - (head - newLen)
  {
  }

  lemma TrimStep(m0: Store, m: Store, c: seq<nat>, k: nat, d: nat)
    requires Trimmed(m0, m, c, k, d) && k < |c| && NoDup(c) && c[k] in m0 && c[k] in m && m0[c[k]].tot >= d
    ensures m[c[k]] == m0[c[k]]
    ensures Trimmed(m0, m[c[k] := m[c[k]].(tot := m[c[k]].tot - d)], c, k + 1, d)
  {
  }

  /** Byte counts along the walk: what the new length leaves for pbuf k. */
  ghost predicate LeftAt(m0: Store, c: seq<nat>, k: nat, newLen: nat, rem: nat) {
    k < |c| && newLen == |Flat(m0, c[..k])| + rem
  }

  lemma LeftMoves(m0: Store, c: seq<nat>, k: nat, newLen: nat, rem: nat)
    requires LeftAt(m0, c, k, newLen, rem) && TotOk(m0, c) && newLen < TotAt(m0, c, 0) && c[k] in m0
    ensures m0[c[k]].tot == TotAt(m0, c, 0) - |Flat(m0, c[..k])| && m0[c[k]].tot > rem
    ensures rem > |m0[c[k]].payload| ==> k + 1 < |c| && LeftAt(m0, c, k + 1, newLen, rem - |m0[c[k]].payload|)
  {
    TotIsLength(m0, c, 0);
    TotIsLength(m0, c, k);
    assert c[0..] == c && c == c[..k] + c[k..];
    FlatSplit(m0, c[..k], c[k..]);
    FlatPrefix(m0, c, k);
    if k + 1 == |c| {
      assert TotStep(m0, c, k);
    }
  }

  /** The pbuf where the chain is cut: `rem` bytes stay in it. */
  function CutPbuf(b: PbufChain.Pbuf, rem: nat): PbufChain.Pbuf
    requires rem <= |b.payload|
  {
    b.(payload := b.payload[..rem], tot := rem)
  }

  lemma CutFlat(m0: Store, m: Store, c: seq<nat>, k: nat, newLen: nat, rem: nat)
    requires LeftAt(m0, c, k, newLen, rem) && c[k] in m0 && rem <= |m0[c[k]].payload| && newLen <= |Flat(m0, c)|
    requires c[k] in m && m[c[k]].payload == m0[c[k]].payload[..rem]
    requires forall x :: x in c[..k] ==> x in m0 && x in m && m[x].payload == m0[x].payload
    ensures Flat(m, c[..k + 1]) == Flat(m0, c)[..newLen]
  {
    FlatPrefix(m, c, k);
    FlatSame(m0, m, c[..k]);
    FlatAt(m0, c, k);
  }

  /** m holds the first k pbufs of c trimmed and pbuf k cut to rem bytes. */
  ghost predicate CutTo(m0: Store, m: Store, c: seq<nat>, k: nat, d: nat, rem: nat) {
    && k < |c| && c[k] in m0 && c[k] in m && rem <= |m0[c[k]].payload|
    && m[c[k]].payload == m0[c[k]].payload[..rem] && m[c[k]].tot == rem
    && (forall i :: 0 <= i < k ==> TrimmedAt(m0, m, c, i, d))
  }

  ghost predicate TrimmedAt(m0: Store, m: Store, c: seq<nat>, i: nat, d: nat) {
    i < |c| && c[i] in m0 && c[i] in m && m[c[i]].payload == m0[c[i]].payload && m[c[i]].tot == m0[c[i]].tot - d
  }

  lemma CutTot(m0: Store, m: Store, c: seq<nat>, k: nat, newLen: nat, rem: nat)
    requires TotOk(m0, c) && newLen < TotAt(m0, c, 0) && LeftAt(m0, c, k, newLen, rem)
    requires CutTo(m0, m, c, k, TotAt(m0, c, 0) - newLen, rem)
    ensures TotOk(m, c[..k + 1])
  {
    var d, e := TotAt(m0, c, 0) - newLen, c[..k + 1];
    LeftMoves(m0, c, k, newLen, rem);
    hide LeftAt, Flat;
    forall i | 0 <= i < |e| ensures TotStep(m, e, i) {
      assert TotStep(m0, c, i);
      if i < k {
        assert TrimmedAt(m0, m, c, i, d);
      }
      if i + 1 < k {
        assert TrimmedAt(m0, m, c, i + 1, d);
      }
    }
  }

  lemma CutBytes(m0: Store, m: Store, c: seq<nat>, k: nat, d: nat, newLen: nat, rem: nat)
    requires TotOk(m0, c) && newLen <= TotAt(m0, c, 0) && LeftAt(m0, c, k, newLen, rem) && CutTo(m0, m, c, k, d, rem)
    ensures newLen <= |Flat(m0, c)| && Flat(m, c[..k + 1]) == Flat(m0, c)[..newLen]
  {
    TotIsLength(m0, c, 0);
    assert c[0..] == c;
    forall x | x in c[..k] ensures x in m0 && x in m && m[x].payload == m0[x].payload {
      var i :| 0 <= i < k && c[i] == x;
      assert TrimmedAt(m0, m, c, i, d);
    }
    CutFlat(m0, m, c, k, newLen, rem);
  }
}
