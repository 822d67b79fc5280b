/** The pbuf operations of net/lwip/core/pbuf.c on a store of pbufs that they update in place. */
module Pbuf {
  import opened Common
  import opened PbufChain
  import opened PbufRefs
  import opened PbufData
  import opened CopyLengths

  const POOL_BUFSIZE: nat := 2000
  const TRANSPORT_HLEN: nat := 20
  const IP_HLEN: nat := 20
  const LINK_HLEN: nat := 14

  /** LWIP_MEM_ALIGN_SIZE with MEM_ALIGNMENT 4. */
  function Align4(n: nat): (r: nat)
    ensures r % 4 == 0 && n <= r < n + 4
  {
    (n + 3) / 4 * 4
  }

  datatype Layer = Transport | Ip | Link | Raw

  /** Room for the headers of a layer and of those below it. */
  function HeaderRoom(layer: Layer): nat {
    match layer
    case Transport => TRANSPORT_HLEN + IP_HLEN + LINK_HLEN
    case Ip => IP_HLEN + LINK_HLEN
    case Link => LINK_HLEN
    case Raw => 0
  }

  /** Pool elements that hold rem bytes. */
  function Elements(rem: nat): nat {
    (rem + POOL_BUFSIZE - 1) / POOL_BUFSIZE
  }

  function FirstLen(offset: nat, length: nat): nat
    requires Align4(offset) <= POOL_BUFSIZE
  {
    Min(length, POOL_BUFSIZE - Align4(offset))
  }

  /** A pbuf as pbuf_alloc sets it up; what its payload holds is not specified there. */
  function FreshPbuf(len: nat, tot: nat): PbufChain.Pbuf {
    PbufChain.Pbuf(0, seq(len, i => 0), tot, 1, Pool)
  }

  /** Pool elements that hold `length` bytes behind the header room, but at least one. */
  function Needed(offset: nat, length: nat): nat {
    if Align4(offset) + length == 0 then 1 else Elements(Align4(offset) + length)
  }

  ghost predicate PoolOk(pool: set<nat>, m: Store) {
    forall p :: p in pool ==> p != 0 && p !in m
  }

  /** The pool elements of m0 that are no longer live. */
  ghost function Returned(m0: Store, m: Store): set<nat> {
    set x | x in m0 && x !in m && m0[x].kind == Pool
  }

  ghost predicate Within(m0: Store, m: Store) {
    m.Keys <= m0.Keys && forall x :: x in m ==> m[x].kind == m0[x].kind
  }

  lemma ReturnOne(m0: Store, pool0: set<nat>, m: Store, pool: set<nat>, p: nat)
    requires Within(m0, m) && p in m && p != 0 && PoolOk(pool, m) && pool == pool0 + Returned(m0, m)
    ensures var pool1 := if m[p].kind == Pool then pool + {p} else pool;
      Within(m0, m - {p}) && PoolOk(pool1, m - {p}) && pool1 == pool0 + Returned(m0, m - {p})
  {
  }

  lemma LowerOne(m0: Store, m: Store, pool: set<nat>, p: nat)
    requires Within(m0, m) && p in m && m[p].ref > 0 && PoolOk(pool, m)
    ensures Within(m0, Lowered(m, p)) && Returned(m0, Lowered(m, p)) == Returned(m0, m) && PoolOk(pool, Lowered(m, p))
  {
  }

  class Pbufs {
    var m: Store
    var pool: set<nat>                    // free elements of the pbuf pool
    ghost var ch: map<nat, seq<nat>>      // the chain of every live pbuf
    ghost var ext: multiset<nat>          // holders outside the store

    ghost predicate Linkage()
      reads this
    {
      Chains(m, ch) && PoolOk(pool, m)
    }

    ghost predicate Valid()
      reads this
    {
      Linkage() && Refs(m, ext, 0)
    }

    constructor (free: set<nat>)
      requires 0 !in free
      ensures Valid() && m == map[] && pool == free && ext == multiset{}
    {
      m, pool, ch, ext := map[], free, map[], multiset{};
    }

    method PbufRef(p: nat)
      requires Valid() && (p == 0 || p in m)
      modifies this
      ensures Valid() && ch == old(ch) && pool == old(pool)
      ensures p == 0 ==> m == old(m) && ext == old(ext)
      ensures p != 0 ==> m == Raised(old(m), p) && ext == old(ext) + multiset{p}
    {
      hide Chains, Refs, Into;
      if p != 0 {
        AddRefKeeps(m, ch, ext, p);
        m := m[p := m[p].(ref := m[p].ref + 1)];
        ext := ext + multiset{p};
      }
    }

    /** The loop of pbuf_free, once the pointer to p is gone; the count is returned in 8 bits. */
    method FreeOwed(p0: nat) returns (count: nat)
      requires Linkage() && Refs(m, ext, p0)
      modifies this
      ensures Valid() && ext == old(ext)
      ensures m == Freed(old(m), ChainOf(old(ch), p0)) && count == Ones(old(m), ChainOf(old(ch), p0)) % 256
      ensures forall x :: x in ch ==> x in old(ch) && ch[x] == old(ch)[x]
      ensures pool == old(pool) + Returned(old(m), m)
    {
      hide Refs, Into, Chains, Freed, Ones, PoolOk, Returned, Within, ChainOf;
      var p := p0;
      count := 0;
      ghost var total := 0;
      NoneReturned(m);
      while p != 0
        invariant Linkage() && Refs(m, ext, p) && ext == old(ext)
        invariant Freed(m, ChainOf(ch, p)) == Freed(old(m), ChainOf(old(ch), p0))
        invariant total + Ones(m, ChainOf(ch, p)) == Ones(old(m), ChainOf(old(ch), p0)) && count == total % 256
        invariant forall x :: x in ch ==> x in old(ch) && ch[x] == old(ch)[x]
        invariant Within(old(m), m) && pool == old(pool) + Returned(old(m), m)
        decreases |ChainOf(ch, p)|
      {
        OwedIsLive(m, ch, ext, p);
        var ref := m[p].ref - 1;
        if ref == 0 {
          FreeOne(m, ch, ext, p);
          ReturnOne(old(m), old(pool), m, pool, p);
          var q := m[p].next;
          if m[p].kind == Pool {
            pool := pool + {p};
          }
          m := m - {p};
          ch := ch - {p};
          count := (count + 1) % 256;
          total := total + 1;
          p := q;
        } else {
          LowerLast(m, ch, ext, p);
          LowerOne(old(m), m, pool, p);
          m := m[p := m[p].(ref := ref)];
          p := 0;
        }
      }
      NothingLeft(m, ch);
    }

    /** pbuf_free by a holder of p, or of NULL: see FreedExact for what goes. */
    method PbufFree(p: nat) returns (count: nat)
      requires Valid() && (p == 0 || p in ext)
      modifies this
      ensures Valid() && ext == if p == 0 then old(ext) else old(ext) - multiset{p}
      ensures m == Freed(old(m), ChainOf(old(ch), p)) && count == Ones(old(m), ChainOf(old(ch), p)) % 256
      ensures forall x :: x in ch ==> x in old(ch) && ch[x] == old(ch)[x]
      ensures pool == old(pool) + Returned(old(m), m)
    {
      hide Chains, Refs, Freed, Ones, Returned, PoolOk, ChainOf, Within;
      if p == 0 {
        NothingLeft(m, ch);
        NoneReturned(m);
        return 0;
      }
      HolderIsLive(m, ch, ext, p);
      GiveUp(m, ext, p);
      ext := ext - multiset{p};
      count := FreeOwed(p);
    }

    /** The loop of pbuf_cat: add the tail's tot_len to all of the head chain, and find its last pbuf. */
    method GrowHead(h: nat, t: nat) returns (p: nat)
      requires Chains(m, ch) && h in m && t in m && t !in ChainOf(ch, h) && TotOk(m, ChainOf(ch, h))
      modifies this`m
      ensures var c := ChainOf(ch, h);
        c != [] && p == c[|c| - 1] && p in m && t in m && m == Grown(old(m), c, old(m)[t].tot) && m.Keys == old(m).Keys
    {
      NotSelf(m, ch, h);
      hide Chains, TotOk, Grown, Add16, ChainOf;
      ghost var c, m0 := ChainOf(ch, h), m;
      ghost var k := 0;
      p := h;
      GrownNone(m, c, m[t].tot);
      while m[p].next != 0
        invariant k < |c| && p == c[k] && p in m && t in m && m[t].tot == m0[t].tot
        invariant m == Grown(m0, c[..k], m0[t].tot) && m.Keys == m0.Keys && m[p] == m0[p]
        decreases |c| - k
      {
        GrownStep(m0, ch, h, t, k);
        p, m := m[p].next, m[p := m[p].(tot := Add16(m[p].tot, m[t].tot))];
        k := k + 1;
      }
      GrownLast(m0, ch, h, t, k);
      assert m[p].tot == |m[p].payload|;   // LWIP_ASSERT
      m := m[p := m[p].(tot := Add16(m[p].tot, m[t].tot))];
    }

    /** pbuf_cat: the caller's hold on t goes to the last pbuf of h; see CatFlat and CatTotIff. */
    method PbufCat(h: nat, t: nat)
      requires Valid() && (h == 0 || h in m) && (t == 0 || t in ext)
      requires h != 0 && t != 0 ==> Disjoint(ChainOf(ch, h), ChainOf(ch, t)) && TotOk(m, ChainOf(ch, h))
      modifies this
      ensures Valid() && pool == old(pool)
      ensures h == 0 || t == 0 ==> m == old(m) && ch == old(ch) && ext == old(ext)
      ensures h != 0 && t != 0 ==> ext == old(ext) - multiset{t} && CatDone(old(m), ChainOf(old(ch), h), t, m)
      ensures h != 0 && t != 0 ==>
        ChainOf(ch, h) == ChainOf(old(ch), h) + ChainOf(old(ch), t) && ChainOf(ch, t) == ChainOf(old(ch), t)
    {
      hide Chains, Refs, TotOk, Grown, Joined, PoolOk, ChainOf, Into, Disjoint;
      if h == 0 || t == 0 {
        return;
      }
      CatReady(m, ch, ext, h, t);
      SameKeysPool(pool, m);
      var p := GrowHead(h, t);
      m := m[p := m[p].(next := t)];
      ch := Joined(ch, p, t);
      ext := ext - multiset{t};
    }

    /**
     pbuf_chain: as pbuf_cat, but the caller keeps its hold on t.  The count of t goes up even
     if h is NULL and nothing is chained, so the caller then owes one more pbuf_free.
     */
    method ChainTail(h: nat, t: nat)
      requires Valid() && (h == 0 || h in m) && (t == 0 || t in ext)
      requires h != 0 && t != 0 ==> Disjoint(ChainOf(ch, h), ChainOf(ch, t)) && TotOk(m, ChainOf(ch, h))
      modifies this
      ensures Valid() && pool == old(pool)
      ensures t == 0 ==> m == old(m) && ext == old(ext)
      ensures h == 0 && t != 0 ==> t in old(m) && m == Raised(old(m), t) && ext == old(ext) + multiset{t}
      ensures h != 0 && t != 0 ==> ext == old(ext) && ChainOf(ch, h) == ChainOf(old(ch), h) + ChainOf(old(ch), t)
      ensures h != 0 && t != 0 ==>
        exists m1 :: CatDone(old(m), ChainOf(old(ch), h), t, m1) && t in m1 && m == Raised(m1, t)
    {
      hide Chains, Refs, TotOk, Grown, PoolOk, ChainOf, Into, Disjoint, Catted;
      if t != 0 {
        HolderIsLive(m, ch, ext, t);
      }
      PbufCat(h, t);
      if h != 0 && t != 0 {
        CatDoneKeys(old(m), ChainOf(old(ch), h), t, m);
        assert old(ext) - multiset{t} + multiset{t} == old(ext);
      }
      PbufRef(t);
    }

    /** The part of pbuf_dechain for a pbuf with a successor. */
    method DropTail(p: nat, q: nat) returns (gone: nat)
      requires Valid() && p in m && q == m[p].next && q in m && TotOk(m, ChainOf(ch, p))
      modifies this
      ensures Valid() && ext == old(ext) && q != p
      ensures p in m && m[p].next == 0 && m[p].tot == |m[p].payload| && ChainOf(ch, p) == [p]
      ensures m == Freed(Decoupled(old(m), p), ChainOf(old(ch), q))
      ensures gone == Ones(Decoupled(old(m), p), ChainOf(old(ch), q)) % 256
      ensures pool == old(pool) + Returned(old(m), m)
    {
      hide Chains, Refs, TotOk, PoolOk, ChainOf, Into, Freed, Ones, CutAfter, Decoupled, Sub16, Returned;
      DechainLinks(m, ch, p);
      DecoupledKeeps(m, ch, ext, p);
      DecoupledIs(m, p);
      SameKeysPool(pool, m);
      m := m[q := m[q].(tot := Sub16(m[p].tot, |m[p].payload|))];
      m := m[p := m[p].(next := 0, tot := |m[p].payload|)];
      ch := CutAfter(ch, p);
      ghost var m1 := m;
      gone := FreeOwed(q);
      SameReturned(old(m), m1, m);
      DechainDone(old(m), old(ch), m, ch, p);
    }

    /** pbuf_dechain; the remainder is returned unless it was deallocated, judged by an 8-bit count. */
    method PbufDechain(p: nat) returns (r: nat)
      requires Valid() && p in m && TotOk(m, ChainOf(ch, p))
      modifies this
      ensures Valid() && ext == old(ext) && p in m
      ensures m[p].next == 0 && m[p].tot == |m[p].payload| && ChainOf(ch, p) == [p]
      ensures old(m)[p].next == 0 ==> r == 0 && m == old(m)
      ensures old(m)[p].next != 0 ==> DechainedTo(old(m), ChainOf(old(ch), old(m)[p].next), p, m, r)
      ensures pool == old(pool) + Returned(old(m), m)
    {
      hide Chains, Refs, TotOk, PoolOk, ChainOf, Into, Freed, Ones, Decoupled, Sub16, Returned;
      NoneReturned(m);
      DechainTots(m, ch, p);
      var q := m[p].next;
      var tailGone := 1;
      if q != 0 {
        assert m[q].tot == Sub16(m[p].tot, |m[p].payload|);   // LWIP_ASSERT
        tailGone := DropTail(p, q);
      }
      assert m[p].tot == |m[p].payload|;   // LWIP_ASSERT
      r := if tailGone > 0 then 0 else q;
    }

    /** pbuf_copy_partial: exactly the bytes [offset, offset + len) of the chain, as far as it goes. */
    method PbufCopyPartial(buf: nat, len: nat, offset: nat) returns (out: seq<nat>)
      requires Chains(m, ch) && (buf == 0 || buf in m)
      ensures out == Slice(Flat(m, ChainOf(ch, buf)), offset, len)
    {
      hide Chains, Flat, Slice, ChainOf;
      var p: nat, n: nat, o: nat := buf, len, offset;
      out := [];
      while n != 0 && p != 0
        invariant p == 0 || p in m
        invariant Slice(Flat(m, ChainOf(ch, buf)), offset, len) == out + Slice(Flat(m, ChainOf(ch, p)), o, n)
        decreases |ChainOf(ch, p)|
      {
        FlatStep(m, ch, p);
        ghost var pay, rest := m[p].payload, Flat(m, ChainOf(ch, m[p].next));
        if o != 0 && o >= |m[p].payload| {
          SliceSkips(pay, rest, o, n);
          o := o - |m[p].payload|;
        } else {
          var k := |m[p].payload| - o;
          if k > n {
            k := n;
          }
          SliceTakes(pay, rest, o, n, k);
          out := out + m[p].payload[o..o + k];
          n, o := n - k, 0;
        }
        p := m[p].next;
      }
      SliceDone(m, ch, p, o, n);
    }

    /**
     pbuf_copy: exactly as many of the source's bytes as the loop on lengths says are at the
     start of the target, however the two are split; all of them if and only if both fit.
     */
    method PbufCopy(to: nat, from: nat) returns (r: Copy)
      requires Valid() && (to == 0 || to in m) && (from == 0 || from in m)
      requires to != 0 && from != 0 ==>
        && TotOk(m, ChainOf(ch, to)) && TotOk(m, ChainOf(ch, from))
        && Disjoint(ChainOf(ch, from), ChainOf(ch, to))
      modifies this`m
      ensures Valid()
      ensures r == ErrArg <==> to == 0 || from == 0 || old(m)[to].tot < old(m)[from].tot
      ensures r.ErrArg? ==> m == old(m)
      ensures r.Copied? ==>
        CopiedTo(old(m), m, ChainOf(ch, to), ChainOf(ch, from), |Flat(old(m), ChainOf(ch, from))|)
      ensures !r.ErrArg? ==>
        var lt, lf := Lengths(old(m), ChainOf(ch, to)), Lengths(old(m), ChainOf(ch, from));
        && lt != [] && lf != []
        && r == CopyLoop(lt, lf, 0, 0, 0, 0, 0).0
        && CopiedTo(old(m), m, ChainOf(ch, to), ChainOf(ch, from), CopyLoop(lt, lf, 0, 0, 0, 0, 0).1)
        && (r.Copied? <==> SourceFits(lt, lf) && TargetFits(lt, lf))
    {
      hide Chains, Refs, Flat, ChainOf, TotOk, PoolOk, CopiedTo, CopyChains, Disjoint, PositionIs, Poked, Into;
      hide Lengths, CopyLoop, Queue, SourceFits, TargetFits;
      if to == 0 || from == 0 || m[to].tot < m[from].tot {
        return ErrArg;
      }
      ghost var m0, ct, cf := m, ChainOf(ch, to), ChainOf(ch, from);
      ghost var lt, lf := Lengths(m, ct), Lengths(m, cf);
      CopyStarts(m, ch, to, from);
      CopyFits(m, ct, cf);
      ghost var course := CopyLoop(lt, lf, 0, 0, 0, 0, 0);
      SameKeysPool(pool, m);
      var pTo: nat, pFrom: nat, ot: nat, of: nat := to, from, 0, 0;
      ghost var a: nat, b: nat, k: nat := 0, 0, 0;
      while pFrom != 0
        invariant CopiedTo(m0, m, ct, cf, k) && PositionIs(m0, ct, a, ot, k) && PositionIs(m0, cf, b, of, k)
        invariant a <= |ct| && b <= |cf| && pTo == At(ct, a) && pFrom == At(cf, b)
        invariant Chains(m, ch) && Refs(m, ext, 0) && m.Keys == m0.Keys
        invariant b < |cf| ==> OnCourse(lt, lf, a, ot, b, of, k, course)
        invariant b == |cf| ==> course == (Copied, k)
        decreases |ct| - a + |cf| - b
      {
        CopyReady(m0, m, ct, cf, a, ot, b, of, k);
        CourseStep(lt, lf, a, ot, b, of, k, course);
        LengthsAt(m0, ct, a);
        LengthsAt(m0, cf, b);
        if pTo == 0 {
          return NoTarget;   // LWIP_ASSERT
        }
        var n := Min(|m[pTo].payload| - ot, |m[pFrom].payload| - of);
        CopyStep(m0, m, ct, cf, a, ot, b, of, k, n);
        m := Poked(m, pTo, ot, m[pFrom].payload[of..of + n]);   // MEMCPY
        RefilledChains(m0, m, ct, cf, k + n, ch, ext);
        k, ot, of := k + n, ot + n, of + n;
        if ot == |m[pTo].payload| {
          ot, pTo, a := 0, m[pTo].next, a + 1;
        }
        if of >= |m[pFrom].payload| {
          of, pFrom, b := 0, m[pFrom].next, b + 1;
        }
        QueueTests(m0, m, ct, cf, a, b, k);
        if pFrom != 0 && |m[pFrom].payload| == m[pFrom].tot && m[pFrom].next != 0 {
          return ErrVal;
        }
        if pTo != 0 && |m[pTo].payload| == m[pTo].tot && m[pTo].next != 0 {
          return ErrVal;
        }
      }
      CopyEnds(m0, m, ct, cf, b, of, k);
      r := Copied;
    }

    /** The walk of pbuf_realloc: tot_len goes down along it, by a 16-bit addition of a negative number. */
    method FindCut(p: nat, newLen: nat) returns (q: nat, rem: nat, ghost k: nat)
      requires Valid() && p in m && TotOk(m, ChainOf(ch, p)) && newLen < m[p].tot
      modifies this`m
      ensures var c, d := ChainOf(ch, p), old(m)[p].tot - newLen;
        && k < |c| && Trimmed(old(m), m, c, k, d) && LeftAt(old(m), c, k, newLen, rem)
        && q == c[k] && q in m && q in old(m) && m[q] == old(m)[q] && rem <= |m[q].payload| && (k > 0 ==> rem > 0)
    {
      hide Chains, Refs, Flat, ChainOf, TotOk, PoolOk, Add16, Trimmed, LeftAt;
      ghost var m0, c := m, ChainOf(ch, p);
      WalkStarts(m, ch, p, newLen);
      var grow := U16 + newLen - m[p].tot;
      rem, q, k := newLen, p, 0;
      while rem > |m[q].payload|
        invariant k < |c| && q == c[k] && q in m && q in m0 && m[q] == m0[q] && (k > 0 ==> rem > 0)
        invariant Trimmed(m0, m, c, k, m0[p].tot - newLen) && LeftAt(m0, c, k, newLen, rem)
        decreases |c| - k
      {
        WalkStep(m0, m, ch, p, k, newLen, rem);
        rem := rem - |m[q].payload|;
        q, m := m[q].next, m[q := m[q].(tot := Add16(m[q].tot, grow))];
        k := k + 1;
        assert q != 0;   // LWIP_ASSERT
      }
    }

    /**
     The end of pbuf_realloc: q becomes the last pbuf.  Its next pointer is cleared before the
     rest is freed, not after as in the source; freeing the rest does not touch q.
     */
    method FreeRest(q: nat)
      requires Valid() && q in m
      modifies this
      ensures Valid() && ext == old(ext) && AfterCut(old(m), old(ch), m, ch, q)
      ensures pool == old(pool) + Returned(old(m), m)
    {
      hide Chains, Refs, PoolOk, Freed, Ones, CutAfter, Into, Returned;
      NextIsLive(m, ch, q);
      NoneReturned(m);
      var n := m[q].next;
      if n != 0 {
        CutNext(m, ch, ext, q);
        SameKeysPool(pool, m);
        ghost var ch1 := CutAfter(ch, q);
        m := m[q := m[q].(next := 0)];
        ch := ch1;
        ghost var m1 := m;
        var count := FreeOwed(n);
        SameReturned(old(m), m1, m);
      }
    }

    /**
     pbuf_realloc: the chain keeps its first newLen bytes and the tot_len invariant, in as few
     of its pbufs as hold them; the rest is freed, and other pbufs stay.
     */
    method PbufRealloc(p: nat, newLen: nat) returns (ghost k: nat)
      requires Valid() && p in m && TotOk(m, ChainOf(ch, p))
      modifies this
      ensures Valid() && ext == old(ext) && p in m && TotOk(m, ChainOf(ch, p))
      ensures newLen >= old(m)[p].tot ==> m == old(m) && ch == old(ch)
      ensures newLen < old(m)[p].tot ==>
        newLen <= |Flat(old(m), ChainOf(old(ch), p))|
        && Flat(m, ChainOf(ch, p)) == Flat(old(m), ChainOf(old(ch), p))[..newLen]
      ensures newLen < old(m)[p].tot ==>
        var c := ChainOf(old(ch), p);
        && k < |c| && ChainOf(ch, p) == c[..k + 1] && (k > 0 ==> |Flat(old(m), c[..k])| < newLen)
        && RestFreed(old(m), m, c, k)
      ensures pool == old(pool) + Returned(old(m), m)
    {
      hide Chains, Refs, Flat, ChainOf, TotOk, PoolOk, Trimmed, LeftAt, AfterCut, Into, CutFrom, RestFreed, Returned;
      k := 0;
      NoneReturned(m);
      if newLen >= m[p].tot {
        return;
      }
      ghost var m0, ch0 := m, ch;
      var q: nat, rem: nat;
      q, rem, k := FindCut(p, newLen);
      FewerBytes(m0, ChainOf(ch, p), k, newLen, rem);
      ghost var mt := m;
      CutReady(m0, m, ch, ext, p, k, m0[p].tot - newLen, rem);
      ChainMembers(m0, ch, p);
      CutFromTrim(m0, m, ChainOf(ch, p), k, m0[p].tot - newLen, rem);
      SameKeysPool(pool, m0);
      m := m[q := m[q].(payload := m[q].payload[..rem], tot := rem)];
      ghost var m1 := m;
      FreeRest(q);
      CutDone(m0, ch0, m1, m, ch, p, k, newLen, rem);
      TrimmedKinds(m0, mt, m1, ChainOf(ch0, p), k, m0[p].tot - newLen, rem);
      SameReturned(m0, m1, m);
      RestDone(m0, ch0, mt, m, ch, p, k, m0[p].tot - newLen, rem);
    }

    /** memp_malloc from a nonempty pool, and the fields pbuf_alloc sets. */
    method TakeElement(len: nat, tot: nat) returns (q: nat)
      requires Valid() && pool != {}
      modifies this
      ensures q in old(pool) && q != 0 && pool == old(pool) - {q} && |pool| == |old(pool)| - 1
      ensures q !in old(m) && m == old(m)[q := FreshPbuf(len, tot)]
      ensures Valid() && ext == old(ext) + multiset{q} && ch == old(ch)[q := [q]]
    {
      hide Chains, Refs, PoolOk;
      q :| q in pool;
      PoolElement(pool, m, q);
      NewKeeps(m, ch, ext, q, FreshPbuf(len, tot));
      TakenPool(pool, m, q, FreshPbuf(len, tot));
      pool := pool - {q};
      m := m[q := FreshPbuf(len, tot)];
      ch := ch[q := [q]];
      ext := ext + multiset{q};
    }

    /** One more pbuf at the end of the chain that pbuf_alloc is building. */
    method ExtendChain(p: nat, r: nat, rem: nat, ghost m0: Store, ghost pool0: set<nat>, ghost offset: nat)
      returns (q: nat)
      requires Valid() && p in m && pool != {} && 0 < rem < U16
      requires Built(m0, pool0, m, pool, ChainOf(ch, p), rem) && r == Last(ChainOf(ch, p))
      requires Packed(m, ChainOf(ch, p), offset, rem)
      modifies this
      ensures Valid() && ext == old(ext) && q != 0 && ChainOf(ch, p) == ChainOf(old(ch), p) + [q]
      ensures p in m && m[p].tot == old(m)[p].tot
      ensures Built(m0, pool0, m, pool, ChainOf(ch, p), rem - Min(rem, POOL_BUFSIZE))
      ensures Packed(m, ChainOf(ch, p), offset, rem - Min(rem, POOL_BUFSIZE))
    {
      hide Chains, Refs, PoolOk, Built, ChainOf, Joined, Into, FreshPbuf, Last, Min, Packed;
      ghost var m1, pool1, ch1, ext1 := m, pool, ch, ext;
      q := TakeElement(Min(rem, POOL_BUFSIZE), rem);
      ExtendDone(m0, pool0, m1, pool1, ch1, ext1, p, r, rem, q);
      LastIs(m1, ch1, p);
      PackedMore(m1, ChainOf(ch1, p), offset, rem, q);
      m := m[r := m[r].(next := q)];
      ch := Joined(ch, r, q);
      ext := ext1;
    }

    /** pbuf_alloc for PBUF_POOL: a chain of exactly the requested length, or nothing changes. */
    method PbufAllocPool(layer: Layer, length: nat) returns (p: nat)
      requires Valid() && length < U16
      modifies this
      ensures Valid()
      ensures p == 0 <==> |old(pool)| < Needed(HeaderRoom(layer), length)
      ensures p == 0 ==> m == old(m) && pool == old(pool) && ext == old(ext)
      ensures p != 0 ==> p in m && ext == old(ext) + multiset{p}
      ensures p != 0 ==> |ChainOf(ch, p)| == Needed(HeaderRoom(layer), length)
      ensures p != 0 ==> Built(old(m), old(pool), m, pool, ChainOf(ch, p), 0)
      ensures p != 0 ==> Packed(m, ChainOf(ch, p), HeaderRoom(layer), 0)
      ensures p != 0 ==> TotOk(m, ChainOf(ch, p)) && |Flat(m, ChainOf(ch, p))| == length
    {
      hide Chains, Refs, PoolOk, Built, ChainOf, Into, Flat, TotOk, Elements, FreshPbuf, Packed, Needed, HeaderRoom;
      var offset := HeaderRoom(layer);
      RoomFits(layer);
      NeededFirst(offset, length);
      if pool == {} {
        return 0;
      }
      ghost var m0, pool0, ch0 := m, pool, ch;
      var rem: nat := length - FirstLen(offset, length);
      p := TakeElement(FirstLen(offset, length), length);
      BuiltFirst(m0, pool0, ch0, p, length, rem, FirstLen(offset, length));
      PackedFirst(m, p, offset, length);
      var r := p;
      while rem > 0
        invariant Valid() && p in m && p != 0 && ext == old(ext) + multiset{p} && rem < 0xffff && m[p].tot == length
        invariant Built(m0, pool0, m, pool, ChainOf(ch, p), rem)
        invariant r == Last(ChainOf(ch, p)) && Packed(m, ChainOf(ch, p), offset, rem)
        invariant |ChainOf(ch, p)| + Elements(rem) == Needed(offset, length)
      {
        ElementsStep(rem);
        BuiltSize(m0, pool0, m, pool, ChainOf(ch, p), rem);
        if pool == {} {
          BuiltFreed(m0, pool0, m, pool, ch, p, rem);
          var count := PbufFree(p);
          assert ext == old(ext);
          return 0;
        }
        assert rem < 0xffff;   // LWIP_ASSERT
        r := ExtendChain(p, r, rem, m0, pool0, offset);
        rem := rem - Min(rem, POOL_BUFSIZE);
      }
      ElementsStep(0);
      BuiltSize(m0, pool0, m, pool, ChainOf(ch, p), 0);
      BuiltTot(m0, pool0, m, pool, ChainOf(ch, p));
      HeadTot(m, ch, p);
    }
  }

  lemma HolderIsLive(m: Store, ch: map<nat, seq<nat>>, ext: multiset<nat>, p: nat)
    requires Chains(m, ch) && Refs(m, ext, 0) && p in ext
    ensures p in m && p != 0 && 0 !in m
  {
  }

  lemma OwedIsLive(m: Store, ch: map<nat, seq<nat>>, ext: multiset<nat>, p: nat)
    requires Chains(m, ch) && Refs(m, ext, p) && p != 0
    ensures p in m && p in ch && m[p].ref > 0 && ch[p] != [] && ch[p][0] == p && ChainOf(ch, p) == ch[p]
  {
    NotSelf(m, ch, p);
  }

  /** The head of the chain goes, and its next pointer is owed instead. */
  lemma FreeOne(m: Store, ch: map<nat, seq<nat>>, ext: multiset<nat>, p: nat)
    requires Chains(m, ch) && Refs(m, ext, p) && p in m && m[p].ref == 1
    ensures Chains(m - {p}, ch - {p}) && Refs(m - {p}, ext, m[p].next)
    ensures p in ch && |ChainOf(ch - {p}, m[p].next)| < |ch[p]|
    ensures Freed(m, ch[p]) == Freed(m - {p}, ChainOf(ch - {p}, m[p].next))
    ensures Ones(m, ch[p]) == 1 + Ones(m - {p}, ChainOf(ch - {p}, m[p].next))
  {
    NotSelf(m, ch, p);
    LastPointerGone(m, ext, p);
    RemovedRefs(m, ext, p);
    RemovedChains(m, ch, p);
    TailStays(m, ch, p);
    hide Refs, Chains, Into;
  }

  lemma NoneReturned(m: Store)
    ensures Within(m, m) && Returned(m, m) == {}
  {
  }

  /** A count that stays above zero ends the walk. */
  lemma LowerLast(m: Store, ch: map<nat, seq<nat>>, ext: multiset<nat>, p: nat)
    requires Chains(m, ch) && Refs(m, ext, p) && p in m && m[p].ref > 1
    ensures Chains(Lowered(m, p), ch) && Refs(Lowered(m, p), ext, 0) && ChainOf(ch, 0) == []
    ensures Freed(m, ChainOf(ch, p)) == Lowered(m, p) == Freed(Lowered(m, p), [])
    ensures Ones(m, ChainOf(ch, p)) == 0 == Ones(Lowered(m, p), [])
  {
    hide Refs, Into;
    NotSelf(m, ch, p);
    LoweredKeeps(m, ch, ext, p);
  }

  lemma NothingLeft(m: Store, ch: map<nat, seq<nat>>)
    requires Chains(m, ch)
    ensures Freed(m, ChainOf(ch, 0)) == m && Ones(m, ChainOf(ch, 0)) == 0
  {
  }

  /** m1 is m after pbuf_cat of the chain c with t. */
  ghost predicate CatDone(m: Store, c: seq<nat>, t: nat, m1: Store) {
    c != [] && t in m && c[|c| - 1] in Grown(m, c, m[t].tot) && m1 == Catted(m, c, t)
  }

  /** Joining t to the chain of h makes one chain of both and settles the caller's hold on t. */
  ghost predicate CanJoin(m: Store, ch: map<nat, seq<nat>>, ext: multiset<nat>, h: nat, t: nat) {
    var c := ChainOf(ch, h);
    && t in m && t !in c && c != [] && c[|c| - 1] in Grown(m, c, m[t].tot)
    && Catted(m, c, t).Keys == m.Keys
    && Chains(Catted(m, c, t), Joined(ch, c[|c| - 1], t)) && Refs(Catted(m, c, t), ext - multiset{t}, 0)
    && ChainOf(Joined(ch, c[|c| - 1], t), h) == c + ChainOf(ch, t)
    && ChainOf(Joined(ch, c[|c| - 1], t), t) == ChainOf(ch, t)
  }

  lemma ChainIs(m: Store, ch: map<nat, seq<nat>>, p: nat)
    requires Chains(m, ch) && p in m
    ensures p in ch && ChainOf(ch, p) == ch[p] && p != 0
  {
    hide ChainStep;
  }

  lemma CatReady(m: Store, ch: map<nat, seq<nat>>, ext: multiset<nat>, h: nat, t: nat)
    requires Chains(m, ch) && Refs(m, ext, 0) && h in m && t in ext && Disjoint(ChainOf(ch, h), ChainOf(ch, t))
    ensures CanJoin(m, ch, ext, h, t)
  {
    hide Chains, Refs, Grown, Linked, NoDup;
    HolderIsLive(m, ch, ext, t);
    ChainIs(m, ch, h);
    ChainIs(m, ch, t);
    NotSelf(m, ch, h);
    NotSelf(m, ch, t);
    CatKeeps(m, ch, ext, h, t);
    ChainLinked(m, ch, h);
    GrownIs(m, ch[h], m[t].tot);
  }

  lemma SameKeysPool(pool: set<nat>, m: Store)
    requires PoolOk(pool, m)
    ensures forall m1: Store :: m1.Keys == m.Keys ==> PoolOk(pool, m1)
  {
  }

  lemma GrownNone(m: Store, c: seq<nat>, n: nat)
    ensures Grown(m, c[..0], n) == m
  {
  }

  lemma {:induction false} GrownSnoc(m: Store, c: seq<nat>, p: nat, n: nat)
    ensures Grown(m, c + [p], n) ==
      var m1 := Grown(m, c, n); if p in m1 then m1[p := m1[p].(tot := Add16(m1[p].tot, n))] else m1
  {
    hide Add16;
    if c == [] {
      assert c + [p] == [p];
      assert Grown(m, [p], n) == if p in m then m[p := m[p].(tot := Add16(m[p].tot, n))] else m;
    } else {
      assert (c + [p])[1..] == c[1..] + [p];
      GrownSnoc(if c[0] in m then m[c[0] := m[c[0]].(tot := Add16(m[c[0]].tot, n))] else m, c[1..], p, n);
    }
  }

  /** Going on from pbuf k, which the loop has not changed yet. */
  lemma GrownStep(m: Store, ch: map<nat, seq<nat>>, h: nat, t: nat, k: nat)
    requires Chains(m, ch) && h in m && t in m && t !in ChainOf(ch, h) && k < |ChainOf(ch, h)|
    requires ChainOf(ch, h)[k] in m && m[ChainOf(ch, h)[k]].next != 0
    ensures var c, n := ChainOf(ch, h), m[t].tot;
      var p, m1 := c[k], Grown(m, c[..k], n);
      && k + 1 < |c| && m[p].next == c[k + 1] && c[k + 1] in m && p in m1 && t in m1
      && Grown(m, c[..k + 1], n) == m1[p := m1[p].(tot := Add16(m1[p].tot, n))]
      && Grown(m, c[..k + 1], n).Keys == m.Keys
      && Grown(m, c[..k + 1], n)[c[k + 1]] == m[c[k + 1]] && Grown(m, c[..k + 1], n)[t] == m[t]
  {
    hide Chains, Add16, Linked, Grown, NoDup;
    var c, n := ChainOf(ch, h), m[t].tot;
    assert c == ch[h];
    ChainLinked(m, ch, h);
    LinkAt(m, ch, h, k);
    LinkAt(m, ch, h, k + 1);
    DistinctPrefix(c, k);
    DistinctPrefix(c, k + 1);
    GrownIs(m, c[..k], n);
    GrownIs(m, c[..k + 1], n);
    assert c[..k + 1] == c[..k] + [c[k]];
    GrownSnoc(m, c[..k], c[k], n);
  }

  lemma DistinctPrefix(c: seq<nat>, k: nat)
    requires NoDup(c) && k <= |c|
    ensures NoDup(c[..k]) && forall i :: k <= i < |c| ==> c[i] !in c[..k]
  {
  }

  /** The last pbuf of the head chain. */
  lemma GrownLast(m: Store, ch: map<nat, seq<nat>>, h: nat, t: nat, k: nat)
    requires Chains(m, ch) && h in m && t in m && t !in ChainOf(ch, h) && k < |ChainOf(ch, h)|
    requires ChainOf(ch, h)[k] in m && m[ChainOf(ch, h)[k]].next == 0
    requires TotOk(m, ChainOf(ch, h))
    ensures var c, n := ChainOf(ch, h), m[t].tot;
      var p, m1 := c[k], Grown(m, c[..k], n);
      && k + 1 == |c| && m[p].tot == |m[p].payload| && p in m1 && t in m1 && m1[t] == m[t]
      && Grown(m, c, n) == m1[p := m1[p].(tot := Add16(m1[p].tot, n))] && Grown(m, c, n).Keys == m.Keys
      && Catted(m, c, t) == SetNext(Grown(m, c, n), p, t) && c[|c| - 1] in Grown(m, c, n)
  {
    var c, n := ChainOf(ch, h), m[t].tot;
    assert c == ch[h];
    ChainLinked(m, ch, h);
    LinkAt(m, ch, h, k);
    if k + 1 < |c| {
      LinkAt(m, ch, h, k + 1);
    }
    assert TotStep(m, c, k);
    hide Chains, Add16, Linked, TotOk;
    DistinctPrefix(c, k);
    GrownIs(m, c[..k], n);
    GrownIs(m, c, n);
    assert c == c[..k] + [c[k]];
    GrownSnoc(m, c[..k], c[k], n);
    hide Grown, NoDup;
  }

  lemma LiveIsNotNull(m: Store, ch: map<nat, seq<nat>>, p: nat)
    requires Chains(m, ch) && p in m
    ensures p != 0
  {
  }

  lemma CatDoneKeys(m: Store, c: seq<nat>, t: nat, m1: Store)
    requires CatDone(m, c, t, m1)
    ensures t in m1
  {
    GrownKeys(m, c, m[t].tot);
  }

  lemma {:induction false} GrownKeys(m: Store, c: seq<nat>, n: nat)
    ensures Grown(m, c, n).Keys == m.Keys
  {
    if c != [] {
      GrownKeys(if c[0] in m then m[c[0] := m[c[0]].(tot := Add16(m[c[0]].tot, n))] else m, c[1..], n);
    }
  }

  lemma DecoupledIs(m: Store, p: nat)
    requires p in m && m[p].next in m && m[p].next != p
    ensures var q := m[p].next;
      var m1 := m[q := m[q].(tot := Sub16(m[p].tot, |m[p].payload|))];
      m1[p := m1[p].(next := 0, tot := |m1[p].payload|)] == Decoupled(m, p) && Decoupled(m, p).Keys == m.Keys
  {
  }

  /** The remainder of m[p] is freed, and r is NULL or the remainder as the 8-bit count says. */
  ghost predicate DechainedTo(m: Store, d: seq<nat>, p: nat, m1: Store, r: nat) {
    p in m && m[p].next in m && m1 == Freed(Decoupled(m, p), d)
    && r == if Ones(Decoupled(m, p), d) % 256 > 0 then 0 else m[p].next
  }

  lemma DechainLinks(m: Store, ch: map<nat, seq<nat>>, p: nat)
    requires Chains(m, ch) && p in m && m[p].next in m
    ensures m[p].next != p && ChainOf(CutAfter(ch, p), m[p].next) == ChainOf(ch, m[p].next)
  {
    NotSelf(m, ch, p);
    NotSelf(m, ch, m[p].next);
    if p in ch[m[p].next] {
      Passes(m, ch, m[p].next, p);
    }
    hide Chains;
  }

  lemma DechainTots(m: Store, ch: map<nat, seq<nat>>, p: nat)
    requires Chains(m, ch) && p in m && TotOk(m, ChainOf(ch, p))
    ensures p != 0 && (m[p].next == 0 ==> ChainOf(ch, p) == [p] && m[p].tot == |m[p].payload|)
    ensures m[p].next != 0 ==> m[p].next in m && m[m[p].next].tot == Sub16(m[p].tot, |m[p].payload|)
  {
    NotSelf(m, ch, p);
    LiveIsNotNull(m, ch, p);
    var c := ch[p];
    assert TotStep(m, c, 0);
    if m[p].next != 0 {
      NotSelf(m, ch, m[p].next);
      assert TotStep(m, c, 1);
    }
    hide Chains, TotOk;
  }

  /** Freeing the remainder does not touch p. */
  lemma DechainDone(m: Store, ch: map<nat, seq<nat>>, m1: Store, ch1: map<nat, seq<nat>>, p: nat)
    requires Chains(m, ch) && p in m && m[p].next in m && m[p].next != p
    requires m1 == Freed(Decoupled(m, p), ChainOf(ch, m[p].next)) && Chains(m1, ch1)
    ensures p in m1 && m1[p].next == 0 && m1[p].tot == |m1[p].payload| && ChainOf(ch1, p) == [p]
  {
    hide Sub16;
    NotSelf(m, ch, p);
    NotSelf(m, ch, m[p].next);
    if p in ch[m[p].next] {
      Passes(m, ch, m[p].next, p);
    }
    FreedMisses(Decoupled(m, p), ChainOf(ch, m[p].next), p);
    NotSelf(m1, ch1, p);
  }

  lemma {:induction false} FreedMisses(m: Store, c: seq<nat>, p: nat)
    requires p in m && p !in c
    ensures p in Freed(m, c) && Freed(m, c)[p] == m[p]
  {
    if c != [] && c[0] in m && m[c[0]].ref == 1 {
      FreedMisses(m - {c[0]}, c[1..], p);
    }
  }

  /** The 8-bit count misleads pbuf_dechain exactly when a nonzero multiple of 256 pbufs was deallocated. */
  lemma DechainResult(m: Store, d: seq<nat>)
    requires NoDup(d) && d != [] && forall i :: 0 <= i < |d| ==> d[i] in m && m[d[i]].ref > 0
    ensures d[0] in Freed(m, d) <==> Ones(m, d) == 0
    ensures (Ones(m, d) % 256 > 0 <==> d[0] !in Freed(m, d)) <==> (Ones(m, d) == 0 || Ones(m, d) % 256 != 0)
  {
    FreedExact(m, d);
    var k := Ones(m, d);
    assert k > 0 ==> d[..k][0] == d[0];
  }

  function LongPbuf(i: nat): PbufChain.Pbuf {
    PbufChain.Pbuf(if i < 257 then i + 1 else 0, [], 0, 1, Pool)
  }

  /** Pbufs 1 to 257 in one chain; only the first is held from outside. */
  ghost function LongChain(): Store {
    map i: nat | 1 <= i <= 257 :: LongPbuf(i)
  }

  ghost function LongTail(i: nat): seq<nat>
    requires i <= 258
  {
    seq(258 - i, j requires 0 <= j => i + j)
  }

  lemma LongChainInv()
    ensures Inv(LongChain(), multiset{1})
  {
    var m := LongChain();
    var ch := map i: nat | 1 <= i <= 257 :: LongTail(i);
    forall p | p in m ensures ChainStep(m, ch, p) {
      assert LongTail(p) == [p] + LongTail(p + 1);
    }
    assert Chains(m, ch);
    hide LongTail, Chains;
    forall p | p in m ensures m[p].ref == |Into(m, p)| + multiset{1}[p] {
      LongInto(p);
    }
  }

  lemma LongInto(p: nat)
    requires 1 <= p <= 257
    ensures Into(LongChain(), p) == if p == 1 then {} else {p - 1}
  {
    assert p > 1 ==> p - 1 in LongChain();
  }

  /** Such a dechaining: all 256 pbufs of the remainder are freed, and yet it is returned as alive. */
  lemma DechainMisled() returns (m: Store, p: nat, d: seq<nat>, m1: Store, r: nat)
    ensures Inv(m, multiset{p}) && p in m && Linked(m, [p] + d) && DechainedTo(m, d, p, m1, r)
    ensures r != 0 && r !in m1
  {
    hide Inv, Freed, Ones;
    LongChainInv();
    m, p, d := LongChain(), 1, seq(256, j => j + 2);
    forall i | 0 <= i < 257 ensures LinkStep(m, [p] + d, i) {
    }
    assert forall x :: x in d ==> x in Decoupled(m, p) && Decoupled(m, p)[x].ref == 1;
    FreedAll(Decoupled(m, p), d);
    m1, r := Freed(Decoupled(m, p), d), 2;
    assert d[0] == 2;
  }

  // ------------------------------------------------------------------ copying

  lemma FlatStep(m: Store, ch: map<nat, seq<nat>>, p: nat)
    requires Chains(m, ch) && p in m
    ensures Flat(m, ChainOf(ch, p)) == m[p].payload + Flat(m, ChainOf(ch, m[p].next))
    ensures (m[p].next == 0 || m[p].next in m) && |ChainOf(ch, m[p].next)| < |ChainOf(ch, p)|
  {
    NotSelf(m, ch, p);
  }

  lemma SliceDone(m: Store, ch: map<nat, seq<nat>>, p: nat, o: nat, n: nat)
    requires Chains(m, ch) && (n == 0 || p == 0)
    ensures Slice(Flat(m, ChainOf(ch, p)), o, n) == []
  {
  }

  ghost function At(c: seq<nat>, i: nat): nat {
    if i < |c| then c[i] else 0
  }

  ghost predicate CopyChains(m0: Store, ct: seq<nat>, cf: seq<nat>) {
    TotOk(m0, ct) && TotOk(m0, cf) && Linked(m0, ct) && Linked(m0, cf) && NoDup(ct) && Disjoint(cf, ct)
  }

  lemma CopyStarts(m: Store, ch: map<nat, seq<nat>>, to: nat, from: nat)
    requires Chains(m, ch) && to in m && from in m && m[to].tot >= m[from].tot
    requires TotOk(m, ChainOf(ch, to)) && TotOk(m, ChainOf(ch, from)) && Disjoint(ChainOf(ch, from), ChainOf(ch, to))
    ensures var ct, cf := ChainOf(ch, to), ChainOf(ch, from);
      && CopyChains(m, ct, cf) && CopiedTo(m, m, ct, cf, 0) && TotOk(m, ct) && TotOk(m, cf) && ct != [] && cf != []
      && PositionIs(m, ct, 0, 0, 0) && PositionIs(m, cf, 0, 0, 0)
      && to == At(ct, 0) && from == At(cf, 0)
  {
    var ct, cf := ch[to], ch[from];
    ChainLinked(m, ch, to);
    ChainLinked(m, ch, from);
    TotIsLength(m, ct, 0);
    TotIsLength(m, cf, 0);
    assert ct[0..] == ct && cf[0..] == cf && ct[..0] == [] && cf[..0] == [];
    hide Chains, Linked, TotOk;
    assert Flat(m, cf)[..0] + Flat(m, ct)[0..] == Flat(m, ct);
  }

  /** Both sides are where the loop expects them. */
  lemma CopyReady(m0: Store, m: Store, ct: seq<nat>, cf: seq<nat>, a: nat, ot: nat, b: nat, of: nat, k: nat)
    requires CopyChains(m0, ct, cf) && CopiedTo(m0, m, ct, cf, k) && b < |cf|
    requires PositionIs(m0, ct, a, ot, k) && PositionIs(m0, cf, b, of, k)
    ensures cf[b] in m0 && cf[b] in m && m[cf[b]] == m0[cf[b]] && of <= |m[cf[b]].payload|
    ensures a < |ct| ==>
      ct[a] in m0 && ct[a] in m && ct[a] != 0 && |m[ct[a]].payload| == |m0[ct[a]].payload| && ot <= |m[ct[a]].payload|
  {
    hide Flat, TotOk, NoDup;
    assert cf[b] in cf;
    if a < |ct| {
      assert LinkStep(m0, ct, a) && ct[a] in ct;
    }
  }

  lemma TotalIs(m: Store, c: seq<nat>)
    requires TotOk(m, c) && c != []
    ensures c[0] in m && Total(Lengths(m, c)) == m[c[0]].tot
  {
    hide Flat, Before;
    forall i | 0 <= i < |c| ensures c[i] in m {
      assert TotStep(m, c, i);
    }
    LengthBefore(m, c, |c|);
    TotIsLength(m, c, 0);
    assert c[..|c|] == c && c[0..] == c;
  }

  /** With enough room, success is decided by the lengths. */
  lemma CopyFits(m: Store, ct: seq<nat>, cf: seq<nat>)
    requires TotOk(m, ct) && TotOk(m, cf) && ct != [] && cf != []
    requires ct[0] in m && cf[0] in m && m[ct[0]].tot >= m[cf[0]].tot
    ensures var lt, lf := Lengths(m, ct), Lengths(m, cf);
      CopyLoop(lt, lf, 0, 0, 0, 0, 0).0.Copied? <==> SourceFits(lt, lf) && TargetFits(lt, lf)
  {
    hide TotOk, Lengths, CopyLoop, SourceFits, TargetFits, Total;
    TotalIs(m, ct);
    TotalIs(m, cf);
    CopyIff(Lengths(m, ct), Lengths(m, cf));
  }

  /** From here on the loop on lengths ends as `course`. */
  ghost predicate OnCourse(lt: seq<nat>, lf: seq<nat>, a: nat, ot: nat, b: nat, of: nat, k: nat, course: (Copy, nat)) {
    && b < |lf| && of <= lf[b] && (a < |lt| ==> ot <= lt[a])
    && CopyLoop(lt, lf, a, ot, b, of, k) == course
  }

  /** What one round of the loop on lengths says. */
  lemma CourseStep(lt: seq<nat>, lf: seq<nat>, a: nat, ot: nat, b: nat, of: nat, k: nat, course: (Copy, nat))
    requires OnCourse(lt, lf, a, ot, b, of, k, course)
    ensures a >= |lt| ==> course == (NoTarget, k)
    ensures a < |lt| ==>
      var n := Min(lt[a] - ot, lf[b] - of);
      var (a1, ot1) := if ot + n == lt[a] then (a + 1, 0) else (a, ot + n);
      var (b1, of1) := if of + n == lf[b] then (b + 1, 0) else (b, of + n);
      if Queue(lf, b1) || Queue(lt, a1) then course == (ErrVal, k + n)
      else if b1 == |lf| then course == (Copied, k + n)
      else OnCourse(lt, lf, a1, ot1, b1, of1, k + n, course)
  {
    hide Queue;
  }

  lemma CopyStep(m0: Store, m: Store, ct: seq<nat>, cf: seq<nat>, a: nat, ot: nat, b: nat, of: nat, k: nat, n: nat)
    requires CopyChains(m0, ct, cf) && CopiedTo(m0, m, ct, cf, k)
    requires PositionIs(m0, ct, a, ot, k) && PositionIs(m0, cf, b, of, k)
    requires a < |ct| && b < |cf| && ct[a] in m && cf[b] in m && ct[a] in m0 && cf[b] in m0
    requires ot + n <= |m0[ct[a]].payload| && of + n <= |m0[cf[b]].payload|
    requires |m[ct[a]].payload| == |m0[ct[a]].payload| && m[cf[b]] == m0[cf[b]]
    ensures var m1 := Poked(m, ct[a], ot, m[cf[b]].payload[of..of + n]);
      && CopiedTo(m0, m1, ct, cf, k + n)
      && ct[a] in m1 && |m1[ct[a]].payload| == |m0[ct[a]].payload| && m1[ct[a]].next == At(ct, a + 1)
      && cf[b] in m1 && m1[cf[b]].payload == m0[cf[b]].payload && m1[cf[b]].next == At(cf, b + 1)
    ensures if ot + n == |m0[ct[a]].payload| then PositionIs(m0, ct, a + 1, 0, k + n)
      else PositionIs(m0, ct, a, ot + n, k + n)
    ensures if of + n == |m0[cf[b]].payload| then PositionIs(m0, cf, b + 1, 0, k + n)
      else PositionIs(m0, cf, b, of + n, k + n)
  {
    assert LinkStep(m0, ct, a) && LinkStep(m0, cf, b) && cf[b] in cf && ct[a] in ct;
    LinkedIn(m0, ct);
    LinkedIn(m0, cf);
    CopiesMore(m0, m, ct, cf, k, a, ot, b, of, n);
    PositionMoves(m0, ct, a, ot, k, n);
    PositionMoves(m0, cf, b, of, k, n);
    RefilledAt(m0, m, ct, ct[a]);
    hide Flat, Linked, TotOk, NoDup, CopiedTo, PositionIs, Splice;
  }

  lemma RefilledAt(m0: Store, m: Store, c: seq<nat>, x: nat)
    requires Refilled(m0, m, c) && x in m0
    ensures x in m && m[x].next == m0[x].next && m[x].tot == m0[x].tot && |m[x].payload| == |m0[x].payload|
  {
  }

  lemma LengthsAt(m: Store, c: seq<nat>, i: nat)
    ensures i < |c| && c[i] in m ==> Lengths(m, c)[i] == |m[c[i]].payload|
  {
  }

  /** The two tests for packet queues. */
  lemma QueueTest(m0: Store, m: Store, to: seq<nat>, c: seq<nat>, i: nat)
    requires Refilled(m0, m, to) && TotOk(m0, c) && Linked(m0, c)
    ensures i < |c| ==> c[i] in m && c[i] != 0
    ensures i < |c| ==> (|m[c[i]].payload| == m[c[i]].tot && m[c[i]].next != 0 <==> Queue(Lengths(m0, c), i))
    ensures i >= |c| ==> !Queue(Lengths(m0, c), i)
  {
    hide Lengths, TotOk;
    if i < |c| {
      assert LinkStep(m0, c, i);
      QueueHere(m0, c, i);
      RefilledAt(m0, m, to, c[i]);
    }
  }

  lemma QueueTests(m0: Store, m: Store, ct: seq<nat>, cf: seq<nat>, a: nat, b: nat, k: nat)
    requires CopyChains(m0, ct, cf) && CopiedTo(m0, m, ct, cf, k)
    ensures a < |ct| ==> ct[a] in m && ct[a] != 0
    ensures b < |cf| ==> cf[b] in m && cf[b] != 0
    ensures a < |ct| ==> (|m[ct[a]].payload| == m[ct[a]].tot && m[ct[a]].next != 0 <==> Queue(Lengths(m0, ct), a))
    ensures b < |cf| ==> (|m[cf[b]].payload| == m[cf[b]].tot && m[cf[b]].next != 0 <==> Queue(Lengths(m0, cf), b))
    ensures (a >= |ct| ==> !Queue(Lengths(m0, ct), a)) && (b >= |cf| ==> !Queue(Lengths(m0, cf), b))
  {
    hide Linked, TotOk, NoDup, Disjoint, Refilled, Lengths, Queue, Flat;
    QueueTest(m0, m, ct, ct, a);
    QueueTest(m0, m, ct, cf, b);
  }

  lemma LinkedNotNull(m: Store, c: seq<nat>)
    requires Linked(m, c)
    ensures forall i :: 0 <= i < |c| ==> c[i] != 0
  {
    forall i | 0 <= i < |c| ensures c[i] != 0 {
      assert LinkStep(m, c, i);
    }
  }

  /** NULL is reached only at the end of the source. */
  lemma CopyEnds(m0: Store, m: Store, ct: seq<nat>, cf: seq<nat>, b: nat, of: nat, k: nat)
    requires CopyChains(m0, ct, cf) && PositionIs(m0, cf, b, of, k) && At(cf, b) == 0
    ensures k == |Flat(m0, cf)| && b == |cf|
  {
    LinkedNotNull(m0, cf);
    assert cf[..|cf|] == cf;
  }

  /** Pbuf 1 with room for 10 bytes, and a chain of pbufs 2, 3 and 4 with 3, 2 and 0 bytes. */
  function TailStore(): Store {
    map[1 := PbufChain.Pbuf(0, [0, 0, 0, 0, 0, 0, 0, 0, 0, 0], 10, 1, Ram),
        2 := PbufChain.Pbuf(3, [1, 2, 3], 5, 1, Ram),
        3 := PbufChain.Pbuf(4, [4, 5], 2, 1, Ram), 4 := PbufChain.Pbuf(0, [], 0, 1, Ram)]
  }

  function TailChains(): map<nat, seq<nat>> {
    map[1 := [1], 2 := [2, 3, 4], 3 := [3, 4], 4 := [4]]
  }

  lemma TailStoreChains()
    ensures Chains(TailStore(), TailChains())
  {
    var m, ch := TailStore(), TailChains();
    assert ChainStep(m, ch, 1) && ChainStep(m, ch, 2) && ChainStep(m, ch, 3) && ChainStep(m, ch, 4);
  }

  lemma TailStoreRefs()
    ensures Refs(TailStore(), multiset{1, 2}, 0)
  {
    var m := TailStore();
    assert Into(m, 1) == {} && Into(m, 2) == {} && Into(m, 3) == {2} && Into(m, 4) == {3};
  }

  lemma TailStoreInv()
    ensures Inv(TailStore(), multiset{1, 2})
  {
    hide Chains, Refs;
    TailStoreChains();
    TailStoreRefs();
  }

  lemma TailStoreLinks()
    ensures Linked(TailStore(), [1]) && Linked(TailStore(), [2, 3, 4])
  {
    var m, c := TailStore(), [2, 3, 4];
    assert LinkStep(m, [1], 0) && LinkStep(m, c, 0) && LinkStep(m, c, 1) && LinkStep(m, c, 2);
  }

  lemma TailStoreTots()
    ensures TotOk(TailStore(), [1]) && TotOk(TailStore(), [2, 3, 4])
    ensures Lengths(TailStore(), [1]) == [10] && Lengths(TailStore(), [2, 3, 4]) == [3, 2, 0]
  {
    var m, c := TailStore(), [2, 3, 4];
    assert TotStep(m, [1], 0) && TotStep(m, c, 2) && TotStep(m, c, 1) && TotStep(m, c, 0);
  }

  /** A source that pbuf_copy refuses with 3 of its 5 bytes copied, although the target has room for 10. */
  lemma CopyRefused() returns (m: Store, ct: seq<nat>, cf: seq<nat>)
    ensures Inv(m, multiset{1, 2}) && Linked(m, ct) && Linked(m, cf) && TotOk(m, ct) && TotOk(m, cf) && Disjoint(cf, ct)
    ensures ct == [1] && cf == [2, 3, 4] && 1 in m && 2 in m && m[1].tot == 10 && m[2].tot == 5
    ensures CopyLoop(Lengths(m, ct), Lengths(m, cf), 0, 0, 0, 0, 0) == (ErrVal, 3)
  {
    hide Inv, Linked, TotOk, Lengths, CopyLoop;
    m, ct, cf := TailStore(), [1], [2, 3, 4];
    TailStoreInv();
    TailStoreLinks();
    TailStoreTots();
    CopyStopsShort();
  }

  lemma RefilledChains(m0: Store, m: Store, c: seq<nat>, cf: seq<nat>, k: nat, ch: map<nat, seq<nat>>,
                       ext: multiset<nat>)
    requires CopiedTo(m0, m, c, cf, k) && Chains(m0, ch) && Refs(m0, ext, 0)
    ensures Chains(m, ch) && Refs(m, ext, 0) && m.Keys == m0.Keys
  {
    hide Chains, Refs;
    SameNextChains(m0, m, ch);
    SameRefs(m0, m, ext, 0);
  }

  // ---------------------------------------------------------------- shrinking

  lemma WalkStarts(m: Store, ch: map<nat, seq<nat>>, p: nat, newLen: nat)
    requires Chains(m, ch) && p in m && TotOk(m, ChainOf(ch, p)) && newLen < m[p].tot
    ensures var c := ChainOf(ch, p);
      && c != [] && c[0] == p && m[p].tot < U16
      && Trimmed(m, m, c, 0, m[p].tot - newLen) && LeftAt(m, c, 0, newLen, newLen)
  {
    NotSelf(m, ch, p);
    assert TotStep(m, ch[p], 0);
  }

  lemma NextIsLive(m: Store, ch: map<nat, seq<nat>>, q: nat)
    requires Chains(m, ch) && q in m
    ensures m[q].next == 0 || m[q].next in m
  {
    NotSelf(m, ch, q);
  }

  /** The walk does not run off the chain. */
  lemma WalkLinks(m0: Store, ch: map<nat, seq<nat>>, p: nat, k: nat, newLen: nat, rem: nat)
    requires Chains(m0, ch) && p in m0 && TotOk(m0, ChainOf(ch, p)) && newLen < m0[p].tot
    requires LeftAt(m0, ChainOf(ch, p), k, newLen, rem)
    requires ChainOf(ch, p)[k] in m0 && rem > |m0[ChainOf(ch, p)[k]].payload|
    ensures var c := ChainOf(ch, p);
      && k + 1 < |c| && m0[c[k]].next == c[k + 1] && c[k + 1] != 0 && c[k + 1] in m0 && NoDup(c)
      && LeftAt(m0, c, k + 1, newLen, rem - |m0[c[k]].payload|)
      && m0[p].tot - newLen <= m0[c[k]].tot < U16 && m0[p].tot < U16
  {
    var c := ch[p];
    ChainLinked(m0, ch, p);
    assert TotStep(m0, c, 0) && TotStep(m0, c, k);
    hide Chains, TotOk, Flat;
    LeftMoves(m0, c, k, newLen, rem);
    assert LinkStep(m0, c, k) && LinkStep(m0, c, k + 1);
  }

  lemma WalkStep(m0: Store, m: Store, ch: map<nat, seq<nat>>, p: nat, k: nat, newLen: nat, rem: nat)
    requires Chains(m0, ch) && p in m0 && TotOk(m0, ChainOf(ch, p)) && newLen < m0[p].tot && k < |ChainOf(ch, p)|
    requires var c := ChainOf(ch, p);
      && Trimmed(m0, m, c, k, m0[p].tot - newLen) && LeftAt(m0, c, k, newLen, rem)
      && c[k] in m && c[k] in m0 && m[c[k]] == m0[c[k]]
    requires rem > |m[ChainOf(ch, p)[k]].payload|
    ensures var c := ChainOf(ch, p);
      && k + 1 < |c| && m[c[k]].next == c[k + 1] && c[k + 1] != 0 && c[k + 1] in m0 && c[k + 1] in m && m0[p].tot < U16
      && LeftAt(m0, c, k + 1, newLen, rem - |m[c[k]].payload|)
    ensures var c := ChainOf(ch, p);
      var m1 := m[c[k] := m[c[k]].(tot := Add16(m[c[k]].tot, U16 + newLen - m0[p].tot))];
      Trimmed(m0, m1, c, k + 1, m0[p].tot - newLen) && m1[c[k + 1]] == m0[c[k + 1]]
  {
    hide Chains, TotOk, LeftAt, Flat, Add16, ChainOf, NoDup, Trimmed;
    var c := ChainOf(ch, p);
    WalkLinks(m0, ch, p, k, newLen, rem);
    GrowIsTrim(m0[c[k]].tot, newLen, m0[p].tot);
    TrimStep(m0, m, c, k, m0[p].tot - newLen);
    TrimmedNext(m0, m[c[k] := m[c[k]].(tot := m[c[k]].tot - (m0[p].tot - newLen))], c, k + 1, m0[p].tot - newLen);
  }

  lemma TrimmedNext(m0: Store, m: Store, c: seq<nat>, k: nat, d: nat)
    requires Trimmed(m0, m, c, k, d) && k < |c| && NoDup(c) && c[k] in m0
    ensures c[k] in m && m[c[k]] == m0[c[k]]
  {
  }

  lemma ChainMembers(m: Store, ch: map<nat, seq<nat>>, p: nat)
    requires Chains(m, ch) && p in m
    ensures NoDup(ChainOf(ch, p)) && forall i :: 0 <= i < |ChainOf(ch, p)| ==> ChainOf(ch, p)[i] in m
  {
    ChainLinked(m, ch, p);
    LinkedIn(m, ch[p]);
  }

  lemma TrimmedSame(m0: Store, m: Store, c: seq<nat>, k: nat, d: nat)
    requires Trimmed(m0, m, c, k, d)
    ensures SameNext(m0, m) && forall x :: x in m0 ==> m[x].ref == m0[x].ref && m[x].payload == m0[x].payload
  {
  }

  lemma CutReady(m0: Store, m: Store, ch: map<nat, seq<nat>>, ext: multiset<nat>, p: nat, k: nat, d: nat, rem: nat)
    requires Chains(m0, ch) && Refs(m0, ext, 0) && p in m0
    requires k < |ChainOf(ch, p)| && Trimmed(m0, m, ChainOf(ch, p), k, d)
    requires ChainOf(ch, p)[k] in m && rem <= |m[ChainOf(ch, p)[k]].payload|
    ensures var q := ChainOf(ch, p)[k];
      var m1 := m[q := CutPbuf(m[q], rem)];
      && m1.Keys == m0.Keys && Chains(m1, ch) && Refs(m1, ext, 0) && (m[q].next == 0 || m[q].next in m1)
  {
    hide Chains, Refs, Trimmed;
    var q := ChainOf(ch, p)[k];
    TrimmedSame(m0, m, ChainOf(ch, p), k, d);
    NotSelf(m0, ch, q);
    SameNextChains(m0, m[q := CutPbuf(m[q], rem)], ch);
    SameRefs(m0, m[q := CutPbuf(m[q], rem)], ext, 0);
  }

  lemma CutNext(m: Store, ch: map<nat, seq<nat>>, ext: multiset<nat>, q: nat)
    requires Chains(m, ch) && Refs(m, ext, 0) && q in m && m[q].next in m
    ensures Chains(SetNext(m, q, 0), CutAfter(ch, q)) && Refs(SetNext(m, q, 0), ext, m[q].next)
    ensures SetNext(m, q, 0).Keys == m.Keys
  {
    UnlinkChains(m, ch, q);
    assert 0 !in m;
    UnlinkRefs(m, ext, q);
  }

  /** Cutting a chain after its pbuf k. */
  lemma CutChain(m: Store, ch: map<nat, seq<nat>>, p: nat, k: nat)
    requires Chains(m, ch) && p in m && k < |ChainOf(ch, p)|
    ensures var c := ChainOf(ch, p);
      && c[k] in m && ChainOf(CutAfter(ch, c[k]), p) == c[..k + 1] && Linked(m, c) && NoDup(c)
      && m[c[k]].next == (if k + 1 < |c| then c[k + 1] else 0)
      && (k + 1 < |c| ==> ChainOf(CutAfter(ch, c[k]), c[k + 1]) == c[k + 1..])
  {
    var c := ch[p];
    ChainLinked(m, ch, p);
    Tails(m, ch, p, k);
    LinkAt(m, ch, p, k);
    assert c[k] in c;
    if k + 1 < |c| {
      Tails(m, ch, p, k + 1);
      if c[k] in ch[c[k + 1]] {
        Passes(m, ch, c[k + 1], c[k]);
      }
    }
    hide Chains, Linked, LinkStep;
  }

  /** What FreeOwed leaves after the cut. */
  ghost predicate AfterCut(m1: Store, ch0: map<nat, seq<nat>>, m: Store, ch: map<nat, seq<nat>>, q: nat) {
    && q in m1
    && (m1[q].next == 0 ==> m == m1 && ch == ch0)
    && (m1[q].next != 0 ==> m == Freed(SetNext(m1, q, 0), ChainOf(CutAfter(ch0, q), m1[q].next)))
    && (m1[q].next != 0 ==> forall x :: x in ch ==> ChainOf(ch, x) == ChainOf(CutAfter(ch0, q), x))
  }

  /** Every pbuf that is kept is as it was before the rest was freed, apart from its next pointer. */
  lemma KeptPbuf(m0: Store, ch0: map<nat, seq<nat>>, m1: Store, m: Store, ch: map<nat, seq<nat>>, p: nat, k: nat,
                 i: nat)
    requires Chains(m0, ch0) && p in m0 && k < |ChainOf(ch0, p)| && i <= k && m1.Keys == m0.Keys
    requires ChainOf(ch0, p)[k] in m1 && m1[ChainOf(ch0, p)[k]].next == m0[ChainOf(ch0, p)[k]].next
    requires AfterCut(m1, ch0, m, ch, ChainOf(ch0, p)[k])
    ensures var x := ChainOf(ch0, p)[i];
      x in m && x in m1 && m[x].payload == m1[x].payload && m[x].tot == m1[x].tot
  {
    var c := ChainOf(ch0, p);
    CutChain(m0, ch0, p, k);
    LinkAt(m0, ch0, p, i);
    if k + 1 < |c| {
      LinkAt(m0, ch0, p, k + 1);
      assert c[i] !in c[k + 1..];
      FreedMisses(SetNext(m1, c[k], 0), c[k + 1..], c[i]);
    }
    hide Chains, Linked, NoDup, Freed, CutAfter;
  }

  lemma CutDone(m0: Store, ch0: map<nat, seq<nat>>, m1: Store, m: Store, ch: map<nat, seq<nat>>, p: nat, k: nat,
                newLen: nat, rem: nat)
    requires Chains(m0, ch0) && Chains(m, ch) && p in m0 && k < |ChainOf(ch0, p)| && newLen < m0[p].tot
    requires TotOk(m0, ChainOf(ch0, p)) && LeftAt(m0, ChainOf(ch0, p), k, newLen, rem)
    requires ChainOf(ch0, p)[k] in m1 && AfterCut(m1, ch0, m, ch, ChainOf(ch0, p)[k])
    requires CutFrom(m0, m1, ChainOf(ch0, p), k, m0[p].tot - newLen, rem)
    ensures p in m && TotOk(m, ChainOf(ch, p)) && newLen <= |Flat(m0, ChainOf(ch0, p))|
    ensures Flat(m, ChainOf(ch, p)) == Flat(m0, ChainOf(ch0, p))[..newLen]
    ensures ChainOf(ch, p) == ChainOf(ch0, p)[..k + 1]
  {
    hide Chains, Linked, NoDup, Freed, CutAfter, TotOk, LeftAt, AfterCut, Flat;
    var c, d := ChainOf(ch0, p), m0[p].tot - newLen;
    CutChain(m0, ch0, p, k);
    NotSelf(m0, ch0, p);
    assert TotAt(m0, c, 0) == m0[p].tot;
    KeptPbuf(m0, ch0, m1, m, ch, p, k, 0);
    KeptPbuf(m0, ch0, m1, m, ch, p, k, k);
    forall i | 0 <= i < k ensures TrimmedAt(m0, m, c, i, d) {
      assert TrimmedAt(m0, m1, c, i, d);
      KeptPbuf(m0, ch0, m1, m, ch, p, k, i);
    }
    KeptChain(m0, ch0, m1, m, ch, p, k);
    assert CutTo(m0, m, c, k, d, rem);
    CutTot(m0, m, c, k, newLen, rem);
    CutBytes(m0, m, c, k, d, newLen, rem);
  }

  lemma KeptChain(m0: Store, ch0: map<nat, seq<nat>>, m1: Store, m: Store, ch: map<nat, seq<nat>>, p: nat, k: nat)
    requires Chains(m0, ch0) && Chains(m, ch) && p in m0 && p in m && k < |ChainOf(ch0, p)|
    requires ChainOf(ch0, p)[k] in m0 && ChainOf(ch0, p)[k] in m1
    requires m1[ChainOf(ch0, p)[k]].next == m0[ChainOf(ch0, p)[k]].next
    requires AfterCut(m1, ch0, m, ch, ChainOf(ch0, p)[k])
    ensures ChainOf(ch, p) == ChainOf(ch0, p)[..k + 1]
  {
    CutChain(m0, ch0, p, k);
    hide Linked, NoDup, Freed, CutAfter;
  }

  /** m1 is m0 trimmed up to pbuf k of c, which is cut; no next pointer changed yet. */
  ghost predicate CutFrom(m0: Store, m1: Store, c: seq<nat>, k: nat, d: nat, rem: nat) {
    CutTo(m0, m1, c, k, d, rem) && m1.Keys == m0.Keys && m1[c[k]].next == m0[c[k]].next
  }

  lemma CutFromTrim(m0: Store, m: Store, c: seq<nat>, k: nat, d: nat, rem: nat)
    requires Trimmed(m0, m, c, k, d) && k < |c| && NoDup(c) && c[k] in m && c[k] in m0 && m[c[k]] == m0[c[k]]
    requires rem <= |m[c[k]].payload| && forall i :: 0 <= i < |c| ==> c[i] in m0
    ensures CutFrom(m0, m[c[k] := CutPbuf(m[c[k]], rem)], c, k, d, rem)
  {
  }

  /** The pbufs of c after pbuf k have gone as pbuf_free lets them go; pbufs outside c are as they were. */
  ghost predicate RestFreed(m0: Store, m: Store, c: seq<nat>, k: nat) {
    && k < |c| && m.Keys <= m0.Keys
    && (forall x :: x in m0 && x !in c ==> x in m && m[x] == m0[x])
    && Agree(m, Freed(m0, c[k + 1..]), c[k + 1..])
  }

  /** Two stores have the same pbufs of c. */
  ghost predicate Agree(a: Store, b: Store, c: seq<nat>) {
    forall x :: x in c ==> (x in a <==> x in b) && (x in a && x in b ==> a[x] == b[x])
  }

  lemma {:induction false} FreedKeys(m: Store, c: seq<nat>)
    ensures Freed(m, c).Keys <= m.Keys
  {
    if c != [] && c[0] in m && m[c[0]].ref == 1 {
      FreedKeys(m - {c[0]}, c[1..]);
    }
  }

  /** Freeing a chain only looks at its own pbufs. */
  lemma {:induction false} FreedAgree(a: Store, b: Store, c: seq<nat>)
    requires Agree(a, b, c)
    ensures Agree(Freed(a, c), Freed(b, c), c)
  {
    if c != [] {
      assert c[0] in c;
      if c[0] in a && a[c[0]].ref == 1 {
        FreedAgree(a - {c[0]}, b - {c[0]}, c[1..]);
        FreedKeys(a - {c[0]}, c[1..]);
        FreedKeys(b - {c[0]}, c[1..]);
      }
    }
  }

  lemma FewerBytes(m0: Store, c: seq<nat>, k: nat, newLen: nat, rem: nat)
    requires LeftAt(m0, c, k, newLen, rem) && (k > 0 ==> rem > 0)
    ensures k < |c| && (k > 0 ==> |Flat(m0, c[..k])| < newLen)
  {
  }

  lemma SameReturned(m0: Store, m1: Store, m: Store)
    requires m1.Keys == m0.Keys && forall x :: x in m0 ==> m1[x].kind == m0[x].kind
    ensures Returned(m0, m) == Returned(m1, m)
  {
  }

  lemma TrimmedKinds(m0: Store, mt: Store, m1: Store, c: seq<nat>, k: nat, d: nat, rem: nat)
    requires Trimmed(m0, mt, c, k, d) && k < |c| && c[k] in mt && rem <= |mt[c[k]].payload|
    requires m1 == mt[c[k] := CutPbuf(mt[c[k]], rem)]
    ensures m1.Keys == m0.Keys && forall x :: x in m0 ==> m1[x].kind == m0[x].kind
  {
  }

  lemma RestDone(m0: Store, ch0: map<nat, seq<nat>>, mt: Store, m: Store, ch: map<nat, seq<nat>>, p: nat, k: nat,
                 d: nat, rem: nat)
    requires Chains(m0, ch0) && p in m0 && k < |ChainOf(ch0, p)| && Trimmed(m0, mt, ChainOf(ch0, p), k, d)
    requires ChainOf(ch0, p)[k] in mt && mt[ChainOf(ch0, p)[k]].next == m0[ChainOf(ch0, p)[k]].next
    requires rem <= |mt[ChainOf(ch0, p)[k]].payload|
    requires var q := ChainOf(ch0, p)[k]; AfterCut(mt[q := CutPbuf(mt[q], rem)], ch0, m, ch, q)
    ensures RestFreed(m0, m, ChainOf(ch0, p), k)
  {
    CutChain(m0, ch0, p, k);
    hide Chains, Linked, Freed, CutAfter, Trimmed, NoDup, Agree;
    RestOf(m0, mt, ChainOf(ch0, p), k, d, rem);
    NothingFreed(SetNext(mt[ChainOf(ch0, p)[k] := CutPbuf(mt[ChainOf(ch0, p)[k]], rem)], ChainOf(ch0, p)[k], 0));
  }

  /** The pbufs after pbuf k are those of m0 still. */
  lemma TailUntouched(m0: Store, mt: Store, c: seq<nat>, k: nat, d: nat, rem: nat)
    requires Trimmed(m0, mt, c, k, d) && k < |c| && NoDup(c) && c[k] in mt && rem <= |mt[c[k]].payload|
    ensures var m1 := SetNext(mt[c[k] := CutPbuf(mt[c[k]], rem)], c[k], 0);
      && m1.Keys == m0.Keys && Agree(m1, m0, c[k + 1..])
      && (forall x :: x in m0 && x !in c ==> m1[x] == m0[x])
  {
    forall x | x in c[k + 1..] ensures x !in c[..k] && x != c[k] {
    }
  }

  lemma RestOf(m0: Store, mt: Store, c: seq<nat>, k: nat, d: nat, rem: nat)
    requires Trimmed(m0, mt, c, k, d) && k < |c| && NoDup(c) && c[k] in mt && rem <= |mt[c[k]].payload|
    ensures var m1 := SetNext(mt[c[k] := CutPbuf(mt[c[k]], rem)], c[k], 0); RestFreed(m0, Freed(m1, c[k + 1..]), c, k)
  {
    hide Trimmed, NoDup, Freed, Agree, SetNext, CutPbuf;
    TailUntouched(m0, mt, c, k, d, rem);
    var m1 := SetNext(mt[c[k] := CutPbuf(mt[c[k]], rem)], c[k], 0);
    FreedAgree(m1, m0, c[k + 1..]);
    FreedKeys(m1, c[k + 1..]);
    forall x | x in m0 && x !in c ensures x in Freed(m1, c[k + 1..]) && Freed(m1, c[k + 1..])[x] == m0[x] {
      FreedMisses(m1, c[k + 1..], x);
    }
  }

  lemma NothingFreed(m: Store)
    ensures Freed(m, []) == m
  {
  }

  // --------------------------------------------------------------- allocating

  /** The tot_len of pbuf i while the chain c still lacks rem bytes. */
  ghost predicate TotLacks(m: Store, c: seq<nat>, i: nat, rem: nat) {
    i < |c| && c[i] in m && m[c[i]].tot < U16
    && m[c[i]].tot == |m[c[i]].payload| + (if i + 1 < |c| then TotAt(m, c, i + 1) else rem)
  }

  /** The pbufs of c came from the pool, are held once each, and everything else is as it was. */
  ghost predicate Built(m0: Store, pool0: set<nat>, m: Store, pool: set<nat>, c: seq<nat>, rem: nat) {
    && NoDup(c) && |pool| + |c| == |pool0|
    && (forall x :: x in m <==> x in m0 || x in c)
    && (forall x :: x in m0 ==> x !in c && m[x] == m0[x])
    && (forall x :: x in pool0 <==> x in pool || x in c)
    && (forall x :: x in c ==> x !in pool && m[x].ref == 1 && m[x].kind == Pool)
    && (forall i :: 0 <= i < |c| ==> TotLacks(m, c, i, rem))
  }

  /**
   Every payload of c lies in its element, the first one behind the header room; elements are
   filled in order, and the last one too while rem bytes are lacking.
   */
  ghost predicate Packed(m: Store, c: seq<nat>, offset: nat, rem: nat) {
    forall i :: 0 <= i < |c| ==> PackedAt(m, c, i, offset, rem)
  }

  ghost predicate PackedAt(m: Store, c: seq<nat>, i: nat, offset: nat, rem: nat) {
    && i < |c| && c[i] in m && (i > 0 ==> m[c[i]].payload != [])
    && var end := (if i == 0 then Align4(offset) else 0) + |m[c[i]].payload|;
    && end <= POOL_BUFSIZE && (i + 1 < |c| || rem > 0 ==> end == POOL_BUFSIZE)
  }

  lemma PackedFirst(m: Store, p: nat, offset: nat, length: nat)
    requires Align4(offset) <= POOL_BUFSIZE && p in m && m[p] == FreshPbuf(FirstLen(offset, length), length)
    ensures Packed(m, [p], offset, length - FirstLen(offset, length))
  {
  }

  lemma PackedMore(m: Store, c: seq<nat>, offset: nat, rem: nat, q: nat)
    requires Packed(m, c, offset, rem) && c != [] && q !in m && rem > 0 && c[|c| - 1] in m
    ensures Packed(SetNext(m[q := FreshPbuf(Min(rem, POOL_BUFSIZE), rem)], c[|c| - 1], q), c + [q], offset,
                   rem - Min(rem, POOL_BUFSIZE))
  {
    var m1, d := SetNext(m[q := FreshPbuf(Min(rem, POOL_BUFSIZE), rem)], c[|c| - 1], q), c + [q];
    var rest := rem - Min(rem, POOL_BUFSIZE);
    forall i | 0 <= i < |d| ensures PackedAt(m1, d, i, offset, rest) {
      assert i < |c| ==> PackedAt(m, c, i, offset, rem);
    }
  }

  lemma RoomFits(layer: Layer)
    ensures HeaderRoom(layer) <= 54 && Align4(HeaderRoom(layer)) <= POOL_BUFSIZE
  {
  }

  /** The first element takes what fits behind the headers. */
  lemma NeededFirst(offset: nat, length: nat)
    requires Align4(offset) <= POOL_BUFSIZE
    ensures Needed(offset, length) == 1 + Elements(length - FirstLen(offset, length))
  {
  }

  lemma PoolElement(pool: set<nat>, m: Store, q: nat)
    requires PoolOk(pool, m) && q in pool
    ensures q != 0 && q !in m
  {
  }

  lemma TakenPool(pool: set<nat>, m: Store, q: nat, b: PbufChain.Pbuf)
    requires PoolOk(pool, m) && q in pool
    ensures PoolOk(pool - {q}, m[q := b])
  {
  }

  lemma LastOfChain(m: Store, ch: map<nat, seq<nat>>, p: nat)
    requires Chains(m, ch) && p in m
    ensures var c := ChainOf(ch, p); c != [] && c[0] == p && c[|c| - 1] in m && m[c[|c| - 1]].next == 0
  {
    ChainLinked(m, ch, p);
    var c := ch[p];
    assert LinkStep(m, c, |c| - 1);
  }

  /** A new pbuf goes to the end of the chain of p. */
  lemma ExtendLinks(m1: Store, ch1: map<nat, seq<nat>>, m: Store, ch: map<nat, seq<nat>>, ext: multiset<nat>, p: nat,
                    r: nat, q: nat)
    requires Chains(m1, ch1) && Chains(m, ch) && Refs(m, ext, 0) && p in m1 && q !in m1 && q in m && q in ext
    requires ch == ch1[q := [q]] && m == m1[q := m[q]] && ChainOf(ch1, p) != []
    requires r == ChainOf(ch1, p)[|ChainOf(ch1, p)| - 1] && r in m1 && m1[r].next == 0
    ensures Chains(SetNext(m, r, q), Joined(ch, r, q)) && Refs(SetNext(m, r, q), ext - multiset{q}, 0)
    ensures SetNext(m, r, q).Keys == m.Keys && ChainOf(Joined(ch, r, q), p) == ChainOf(ch1, p) + [q]
  {
    assert 0 !in m && r != q;
    hide Chains;
    assert r in ch[p] && q in ch && ch[q] == [q] && r !in ch[q];
    LinkChains(m, ch, r, q);
    LinkRefs(m, ext, r, q);
  }

  ghost function Last(c: seq<nat>): nat {
    if c == [] then 0 else c[|c| - 1]
  }

  lemma ExtendDone(m0: Store, pool0: set<nat>, m: Store, pool: set<nat>, ch: map<nat, seq<nat>>, ext: multiset<nat>,
                   p: nat, r: nat, rem: nat, q: nat)
    requires Chains(m, ch) && p in m && q in pool && q !in m && 0 < rem < U16
    requires Built(m0, pool0, m, pool, ChainOf(ch, p), rem) && r == Last(ChainOf(ch, p))
    requires var m2 := m[q := FreshPbuf(Min(rem, POOL_BUFSIZE), rem)];
      Chains(m2, ch[q := [q]]) && Refs(m2, ext + multiset{q}, 0) && PoolOk(pool - {q}, m2)
    ensures r in m && r != q
    ensures var m3 := SetNext(m[q := FreshPbuf(Min(rem, POOL_BUFSIZE), rem)], r, q);
      var ch3 := Joined(ch[q := [q]], r, q);
      && Chains(m3, ch3) && Refs(m3, ext, 0) && PoolOk(pool - {q}, m3) && ChainOf(ch3, p) == ChainOf(ch, p) + [q]
      && Built(m0, pool0, m3, pool - {q}, ChainOf(ch3, p), rem - Min(rem, POOL_BUFSIZE))
      && p in m3 && m3[p].tot == m[p].tot
  {
    hide Chains, Refs, Built, Joined, FreshPbuf, Min, PoolOk, ChainOf, Last;
    LastIs(m, ch, p);
    ExtendValid(m, pool, ch, ext, p, r, q, FreshPbuf(Min(rem, POOL_BUFSIZE), rem));
    BuiltMore(m0, pool0, m, pool, ChainOf(ch, p), rem, q);
  }

  lemma LastIs(m: Store, ch: map<nat, seq<nat>>, p: nat)
    requires Chains(m, ch) && p in m
    ensures var c := ChainOf(ch, p); c != [] && c[0] == p && Last(c) == c[|c| - 1] && Last(c) in m
  {
    LastOfChain(m, ch, p);
  }

  lemma ExtendValid(m: Store, pool: set<nat>, ch: map<nat, seq<nat>>, ext: multiset<nat>, p: nat, r: nat, q: nat,
                    b: PbufChain.Pbuf)
    requires Chains(m, ch) && p in m && q !in m && r == Last(ChainOf(ch, p))
    requires Chains(m[q := b], ch[q := [q]]) && Refs(m[q := b], ext + multiset{q}, 0) && PoolOk(pool - {q}, m[q := b])
    ensures r in m && r != q
    ensures var m3 := SetNext(m[q := b], r, q);
      var ch3 := Joined(ch[q := [q]], r, q);
      && Chains(m3, ch3) && Refs(m3, ext, 0) && PoolOk(pool - {q}, m3) && ChainOf(ch3, p) == ChainOf(ch, p) + [q]
  {
    hide Chains, Refs, Joined, PoolOk;
    LastOfChain(m, ch, p);
    ExtendLinks(m, ch, m[q := b], ch[q := [q]], ext + multiset{q}, p, r, q);
    assert ext + multiset{q} - multiset{q} == ext;
    SameKeysPool(pool - {q}, m[q := b]);
  }

  lemma BuiltMore(m0: Store, pool0: set<nat>, m: Store, pool: set<nat>, c: seq<nat>, rem: nat, q: nat)
    requires Built(m0, pool0, m, pool, c, rem) && c != [] && q in pool && q !in m && 0 < rem < U16 && c[|c| - 1] in m
    ensures var m1 := SetNext(m[q := FreshPbuf(Min(rem, POOL_BUFSIZE), rem)], c[|c| - 1], q);
      && Built(m0, pool0, m1, pool - {q}, c + [q], rem - Min(rem, POOL_BUFSIZE))
      && c[0] in m && c[0] in m1 && m1[c[0]].tot == m[c[0]].tot
  {
    hide TotLacks, NoDup, FreshPbuf;
    var m1, d := SetNext(m[q := FreshPbuf(Min(rem, POOL_BUFSIZE), rem)], c[|c| - 1], q), c + [q];
    var n := rem - Min(rem, POOL_BUFSIZE);
    assert q !in c;
    forall i | 0 <= i < |d| ensures TotLacks(m1, d, i, n) {
      BuiltTotMore(m, c, rem, q, i);
    }
    BuiltDistinct(c, q);
    assert c[0] in c && c[|c| - 1] in c;
    assert |pool - {q}| == |pool| - 1;
    BuiltElement(m, q, rem, c[|c| - 1]);
  }

  lemma BuiltElement(m: Store, q: nat, rem: nat, r: nat)
    requires q !in m && r in m
    ensures var m1 := SetNext(m[q := FreshPbuf(Min(rem, POOL_BUFSIZE), rem)], r, q);
      m1.Keys == m.Keys + {q} && m1[q].ref == 1 && m1[q].kind == Pool
      && forall x :: x in m ==>
        && m1[x].ref == m[x].ref && m1[x].kind == m[x].kind && m1[x].tot == m[x].tot
        && (x != r ==> m1[x] == m[x])
  {
  }

  lemma BuiltDistinct(c: seq<nat>, q: nat)
    requires NoDup(c) && q !in c
    ensures NoDup(c + [q])
  {
  }

  lemma BuiltTotMore(m: Store, c: seq<nat>, rem: nat, q: nat, i: nat)
    requires c != [] && q !in m && 0 < rem < U16 && i <= |c| && c[|c| - 1] in m
    requires forall j :: 0 <= j < |c| ==> TotLacks(m, c, j, rem)
    ensures var m1 := SetNext(m[q := FreshPbuf(Min(rem, POOL_BUFSIZE), rem)], c[|c| - 1], q);
      TotLacks(m1, c + [q], i, rem - Min(rem, POOL_BUFSIZE))
  {
    if i < |c| {
      assert TotLacks(m, c, i, rem);
      if i + 1 < |c| {
        assert TotLacks(m, c, i + 1, rem);
      }
    }
  }

  lemma BuiltFirst(m0: Store, pool0: set<nat>, ch0: map<nat, seq<nat>>, p: nat, length: nat, rem: nat, len: nat)
    requires p in pool0 && p !in m0 && length < U16 && length == len + rem && Chains(m0, ch0)
    ensures Built(m0, pool0, m0[p := FreshPbuf(len, length)], pool0 - {p}, ChainOf(ch0[p := [p]], p), rem)
    ensures ChainOf(ch0[p := [p]], p) == [p] && FreshPbuf(len, length).tot == length
  {
  }

  lemma BuiltSize(m0: Store, pool0: set<nat>, m: Store, pool: set<nat>, c: seq<nat>, rem: nat)
    requires Built(m0, pool0, m, pool, c, rem)
    ensures |pool| + |c| == |pool0|
  {
  }

  lemma ElementsStep(rem: nat)
    ensures rem > 0 ==> Elements(rem) == 1 + Elements(rem - Min(rem, POOL_BUFSIZE))
    ensures rem == 0 ==> Elements(rem) == 0
  {
  }

  lemma BuiltTot(m0: Store, pool0: set<nat>, m: Store, pool: set<nat>, c: seq<nat>)
    requires Built(m0, pool0, m, pool, c, 0)
    ensures TotOk(m, c)
  {
    forall i | 0 <= i < |c| ensures TotStep(m, c, i) {
      assert TotLacks(m, c, i, 0);
    }
  }

  lemma HeadTot(m: Store, ch: map<nat, seq<nat>>, p: nat)
    requires Chains(m, ch) && p in m && TotOk(m, ChainOf(ch, p))
    ensures |Flat(m, ChainOf(ch, p))| == m[p].tot
  {
    NotSelf(m, ch, p);
    TotIsLength(m, ch[p], 0);
    assert ch[p][0..] == ch[p];
  }

  /** A chain of pbufs held once each goes as a whole. */
  lemma {:induction false} FreedAll(m: Store, c: seq<nat>)
    requires NoDup(c) && forall x :: x in c ==> x in m && m[x].ref == 1
    ensures Ones(m, c) == |c|
    ensures forall x :: x in Freed(m, c) <==> x in m && x !in c
    ensures forall x :: x in Freed(m, c) ==> Freed(m, c)[x] == m[x]
  {
    if c != [] {
      var d := c[1..];
      assert NoDup(d) && c[0] !in d by {
        forall i, j | 0 <= i < j < |d| ensures d[i] != d[j] {
          assert c[i + 1] != c[j + 1];
        }
      }
      FreedAll(m - {c[0]}, d);
    }
  }

  /** A failed allocation gives every element back. */
  lemma BuiltFreed(m0: Store, pool0: set<nat>, m: Store, pool: set<nat>, ch: map<nat, seq<nat>>, p: nat, rem: nat)
    requires Chains(m, ch) && p in m && Built(m0, pool0, m, pool, ChainOf(ch, p), rem)
    ensures Freed(m, ChainOf(ch, p)) == m0 && pool + Returned(m, m0) == pool0
  {
    hide Chains, TotLacks;
    var c := ChainOf(ch, p);
    FreedAll(m, c);
    assert Freed(m, c).Keys == m0.Keys;
  }
}
