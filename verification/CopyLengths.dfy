/**
 The course of pbuf_copy (net/lwip/core/pbuf.c) depends only on the lengths of the pbufs of
 the two chains.  Its test for packet queues takes a pbuf that only empty ones follow for
 the end of a packet; here is when that makes it fail.
 */
module CopyLengths {
  import opened Common

  /** What pbuf_copy comes to; NoTarget: its assertion that there is still a target pbuf fails. */
  datatype Copy = Copied | ErrArg | ErrVal | NoTarget

  /** The bytes of the first i pbufs. */
  function Before(c: seq<nat>, i: nat): nat
    requires i <= |c|
  {
    if i == 0 then 0 else Before(c, i - 1) + c[i - 1]
  }

  function Total(c: seq<nat>): nat {
    Before(c, |c|)
  }

  /** len == tot_len in a pbuf that is not the last. */
  ghost predicate Queue(c: seq<nat>, i: nat) {
    i + 1 < |c| && forall j :: i < j < |c| ==> c[j] == 0
  }

  /** The loop at offsets ot of pbuf a and of of pbuf b after k bytes: what it returns and the bytes copied by then. */
  ghost function CopyLoop(lt: seq<nat>, lf: seq<nat>, a: nat, ot: nat, b: nat, of: nat, k: nat): (Copy, nat)
    requires b < |lf| && of <= lf[b] && (a < |lt| ==> ot <= lt[a])
    decreases |lt| - a + |lf| - b
  {
    if a >= |lt| then (NoTarget, k)
    else
      var n := Min(lt[a] - ot, lf[b] - of);
      var (a1, ot1) := if ot + n == lt[a] then (a + 1, 0) else (a, ot + n);
      var (b1, of1) := if of + n == lf[b] then (b + 1, 0) else (b, of + n);
      if Queue(lf, b1) || Queue(lt, a1) then (ErrVal, k + n)
      else if b1 == |lf| then (Copied, k + n)
      else CopyLoop(lt, lf, a1, ot1, b1, of1, k + n)
  }

  /** The last pbuf that is not empty, or the first. */
  function FullUpTo(c: seq<nat>, i: nat): nat
    requires i < |c|
  {
    if i == 0 || c[i] > 0 then i else FullUpTo(c, i - 1)
  }

  function LastFull(c: seq<nat>): nat
    requires c != []
  {
    FullUpTo(c, |c| - 1)
  }

  /** One pbuf, or a last one that is not empty. */
  predicate Plain(c: seq<nat>)
    requires c != []
  {
    |c| == 1 || c[|c| - 1] > 0
  }

  /** What success asks of the source: without an empty tail, or two pbufs that take one round each. */
  predicate SourceFits(lt: seq<nat>, lf: seq<nat>)
    requires lt != [] && lf != []
  {
    Plain(lf) || (|lf| == 2 && lf[0] <= lt[0] && (lf[0] < lt[0] || |lt| >= 2))
  }

  /** And of the target: its last full pbuf is not reached if empty ones follow, or is the first of two and filled. */
  predicate TargetFits(lt: seq<nat>, lf: seq<nat>)
    requires lt != [] && lf != []
  {
    var l, e := LastFull(lt), if Plain(lf) then 0 else 1;
    || Plain(lt)
    || (l == 0 && |lt| == 2 && lf[0] >= lt[0])
    || (l > 0 && l < |lt| && Total(lf) < Before(lt, l))
    || (l >= 2 + e && l < |lt| && Total(lf) <= Before(lt, l - 1 - e))
  }

  // ------------------------------------------------------------------ lengths

  lemma {:induction false} FullUpToIs(c: seq<nat>, i: nat)
    requires i < |c|
    ensures var l := FullUpTo(c, i);
      l <= i && (l == 0 || c[l] > 0) && forall j :: l < j <= i ==> c[j] == 0
  {
    if i > 0 && c[i] == 0 {
      FullUpToIs(c, i - 1);
    }
  }

  lemma LastFullIs(c: seq<nat>)
    requires c != []
    ensures var l := LastFull(c);
      && l < |c| && (l == 0 || c[l] > 0) && (forall j :: l < j < |c| ==> c[j] == 0)
      && (Plain(c) || l + 1 < |c|)
  {
    FullUpToIs(c, |c| - 1);
  }

  /** Queues begin at the last pbuf that is not empty. */
  lemma QueueIff(c: seq<nat>, i: nat)
    requires c != []
    ensures Queue(c, i) <==> LastFull(c) <= i && i + 1 < |c|
  {
    LastFullIs(c);
  }

  lemma {:induction false} BeforeGrows(c: seq<nat>, i: nat, j: nat)
    requires i <= j <= |c|
    ensures Before(c, i) <= Before(c, j)
    decreases j - i
  {
    if i < j {
      BeforeGrows(c, i, j - 1);
    }
  }

  lemma {:induction false} EmptyTail(c: seq<nat>, i: nat, j: nat)
    requires i <= j <= |c| && forall n :: i <= n < j ==> c[n] == 0
    ensures Before(c, i) == Before(c, j)
    decreases j - i
  {
    if i < j {
      EmptyTail(c, i, j - 1);
    }
  }

  /** k bytes come before offset o of pbuf a, which is not at its end unless it is empty. */
  ghost predicate Position(c: seq<nat>, a: nat, o: nat, k: nat) {
    a <= |c| && k == Before(c, a) + o && (o > 0 ==> a < |c| && o < c[a])
  }

  /** One round: both sides move on by the same number of bytes, and at least one to its next pbuf. */
  ghost predicate Moved(c: seq<nat>, a: nat, o: nat, n: nat, a1: nat, o1: nat) {
    && a < |c| && o + n <= c[a]
    && (if o + n == c[a] then a1 == a + 1 && o1 == 0 else a1 == a && o1 == o + n)
  }

  lemma MovedAt(c: seq<nat>, a: nat, o: nat, k: nat, n: nat, a1: nat, o1: nat)
    requires Position(c, a, o, k) && Moved(c, a, o, n, a1, o1)
    ensures Position(c, a1, o1, k + n)
    ensures (a1 == a ==> k + n < Before(c, a + 1)) && (a1 == a + 1 ==> k + n == Before(c, a + 1))
  {
  }

  /** With a last pbuf that is not empty, the end is reached with the last byte and not before. */
  lemma AtEnd(c: seq<nat>, a: nat, o: nat, k: nat)
    requires c != [] && Position(c, a, o, k) && c[|c| - 1] > 0
    ensures a < |c| <==> k < Total(c)
  {
    if a < |c| {
      BeforeGrows(c, a + 1, |c|);
      if a + 1 < |c| {
        BeforeGrows(c, a + 1, |c| - 1);
      }
    }
  }

  /** The first round, and what comes of it. */
  lemma RoundIs(lt: seq<nat>, lf: seq<nat>, a: nat, ot: nat, b: nat, of: nat, k: nat)
    returns (n: nat, a1: nat, ot1: nat, b1: nat, of1: nat)
    requires Position(lt, a, ot, k) && Position(lf, b, of, k) && a < |lt| && b < |lf|
    ensures Moved(lt, a, ot, n, a1, ot1) && Moved(lf, b, of, n, b1, of1) && (a1 == a + 1 || b1 == b + 1)
    ensures Position(lt, a1, ot1, k + n) && Position(lf, b1, of1, k + n)
    ensures a1 == a ==> k + n < Before(lt, a + 1)
    ensures a1 == a + 1 ==> k + n == Before(lt, a + 1)
    ensures CopyLoop(lt, lf, a, ot, b, of, k) ==
      if Queue(lf, b1) || Queue(lt, a1) then (ErrVal, k + n)
      else if b1 == |lf| then (Copied, k + n)
      else CopyLoop(lt, lf, a1, ot1, b1, of1, k + n)
  {
    hide Queue;
    n := Min(lt[a] - ot, lf[b] - of);
    if ot + n == lt[a] {
      a1, ot1 := a + 1, 0;
    } else {
      a1, ot1 := a, ot + n;
    }
    if of + n == lf[b] {
      b1, of1 := b + 1, 0;
    } else {
      b1, of1 := b, of + n;
    }
    MovedAt(lt, a, ot, k, n, a1, ot1);
    MovedAt(lf, b, of, k, n, b1, of1);
  }

  // --------------------------------------------------------- sources without an empty tail

  /** k bytes end before pbuf l, the last that is not empty, with a pbuf between if they fill theirs. */
  ghost predicate Short(lt: seq<nat>, l: nat, k: nat)
    requires l <= |lt|
  {
    k < Before(lt, l) || (l >= 2 && k <= Before(lt, l - 1))
  }

  /** Having moved from pbuf a, below l, to a1 and k1 of the total bytes, l is reached or not. */
  lemma ShortIff(lt: seq<nat>, l: nat, a: nat, a1: nat, k: nat, k1: nat, total: nat)
    requires a < l < |lt| && Before(lt, a) <= k < total && k1 <= total
    requires (a1 == a && k1 < Before(lt, a + 1)) || (a1 == a + 1 && k1 == Before(lt, a + 1))
    ensures a1 < l && k1 == total ==> Short(lt, l, total)
    ensures a1 == l ==> !Short(lt, l, total)
  {
    BeforeGrows(lt, a + 1, l);
    if a + 1 < l {
      BeforeGrows(lt, a + 1, l - 1);
    }
    hide Before;
  }

  lemma {:induction false} PlainCopies(lt: seq<nat>, lf: seq<nat>, a: nat, ot: nat, b: nat, of: nat, k: nat, l: nat)
    requires lt != [] && lf != [] && Total(lt) >= Total(lf) && lf[|lf| - 1] > 0 && b < |lf|
    requires Position(lt, a, ot, k) && Position(lf, b, of, k) && l == LastFull(lt) < |lt| && (Plain(lt) || a < l)
    ensures a < |lt| && (CopyLoop(lt, lf, a, ot, b, of, k).0.Copied? <==> Plain(lt) || Short(lt, l, Total(lf)))
    decreases |lt| - a + |lf| - b
  {
    hide CopyLoop, Before, LastFull, Queue, Short;
    LastFullIs(lt);
    LastFullIs(lf);
    AtEnd(lf, b, of, k);
    NotAtEnd(lt, a, ot, k, Total(lf));
    var n, a1, ot1, b1, of1 := RoundIs(lt, lf, a, ot, b, of, k);
    AtEnd(lf, b1, of1, k + n);
    BeforeTotal(lf, b1, of1, k + n);
    QueueIff(lt, a1);
    QueueIff(lf, b1);
    if !Plain(lt) {
      ShortIff(lt, l, a, a1, k, k + n, Total(lf));
    }
    if b1 < |lf| && (Plain(lt) || a1 < l) {
      PlainCopies(lt, lf, a1, ot1, b1, of1, k + n, l);
    }
  }

  lemma NotAtEnd(c: seq<nat>, a: nat, o: nat, k: nat, total: nat)
    requires Position(c, a, o, k) && k < total <= Total(c)
    ensures a < |c|
  {
  }

  lemma BeforeTotal(c: seq<nat>, a: nat, o: nat, k: nat)
    requires Position(c, a, o, k)
    ensures k <= Total(c)
  {
    if a < |c| {
      BeforeGrows(c, a + 1, |c|);
    }
  }

  /** A target with all its bytes in its first pbuf, and empty ones after it. */
  lemma OneFullPbuf(lt: seq<nat>, lf: seq<nat>)
    requires lt != [] && lf != [] && Total(lt) >= Total(lf) && lf[|lf| - 1] > 0
    requires !Plain(lt) && LastFull(lt) == 0
    ensures CopyLoop(lt, lf, 0, 0, 0, 0, 0).0.Copied? <==> |lt| == 2 && lf[0] >= lt[0]
  {
    hide CopyLoop, LastFull, Queue;
    LastFullIs(lt);
    LastFullIs(lf);
    EmptyTail(lt, 1, |lt|);
    var n, a1, ot1, b1, of1 := RoundIs(lt, lf, 0, 0, 0, 0, 0);
    AtEnd(lf, b1, of1, n);
    BeforeTotal(lf, b1, of1, n);
    QueueIff(lt, a1);
    QueueIff(lf, b1);
  }

  /** A source of one empty pbuf takes one round. */
  lemma NothingToCopy(lt: seq<nat>, lf: seq<nat>)
    requires lt != [] && lf == [0]
    ensures CopyLoop(lt, lf, 0, 0, 0, 0, 0).0.Copied? <==> TargetFits(lt, lf)
  {
    hide CopyLoop, LastFull, Queue;
    LastFullIs(lt);
    var n, a1, ot1, b1, of1 := RoundIs(lt, lf, 0, 0, 0, 0, 0);
    QueueIff(lt, a1);
    NoQueue(lf, 1);
    assert Before(lf, 1) == 0 && Before(lt, 1) == lt[0];
    if LastFull(lt) > 0 {
      BeforeGrows(lt, 1, LastFull(lt));
    }
  }

  // ------------------------------------------------------------ sources with an empty tail

  /** A source that goes past its first pbuf stops at the last that is not empty. */
  lemma {:induction false} QueueStops(lt: seq<nat>, lf: seq<nat>, a: nat, ot: nat, b: nat, of: nat, k: nat)
    requires Position(lt, a, ot, k) && Position(lf, b, of, k) && lf != [] && !Plain(lf) && b < LastFull(lf) < |lf|
    ensures !CopyLoop(lt, lf, a, ot, b, of, k).0.Copied?
    decreases |lt| - a + |lf| - b
  {
    hide CopyLoop, Before, LastFull, Queue;
    LastFullIs(lf);
    if a == |lt| {
      NoMoreTarget(lt, lf, a, ot, b, of, k);
    } else {
      var n, a1, ot1, b1, of1 := RoundIs(lt, lf, a, ot, b, of, k);
      QueueIff(lf, b1);
      if b1 < LastFull(lf) {
        QueueStops(lt, lf, a1, ot1, b1, of1, k + n);
      }
    }
  }

  lemma NoMoreTarget(lt: seq<nat>, lf: seq<nat>, a: nat, ot: nat, b: nat, of: nat, k: nat)
    requires a >= |lt| && b < |lf| && of <= lf[b]
    ensures CopyLoop(lt, lf, a, ot, b, of, k) == (NoTarget, k)
  {
  }

  /** One with all its bytes in the first pbuf gets no further than the second. */
  lemma TwoPbufsAtMost(lt: seq<nat>, lf: seq<nat>)
    requires lt != [] && lf != [] && !Plain(lf)
    ensures CopyLoop(lt, lf, 0, 0, 0, 0, 0).0.Copied? ==> |lf| == 2 && lf[0] <= lt[0]
  {
    hide CopyLoop, LastFull, Queue;
    LastFullIs(lf);
    if LastFull(lf) > 0 {
      QueueStops(lt, lf, 0, 0, 0, 0, 0);
    } else {
      var n, a1, ot1, b1, of1 := RoundIs(lt, lf, 0, 0, 0, 0, 0);
      QueueIff(lf, b1);
    }
  }

  /** Two rounds, the second without a byte. */
  lemma TwoRounds(lt: seq<nat>, x: nat)
    requires lt != [] && x <= lt[0]
    ensures var r := CopyLoop(lt, [x, 0], 0, 0, 0, 0, 0).0;
      var a := if x == lt[0] then 1 else 0;
      var a2 := if a == 1 < |lt| && lt[1] == 0 then 2 else a;
      r.Copied? <==> a < |lt| && !Queue(lt, a) && !Queue(lt, a2)
  {
    hide CopyLoop, Queue;
    var lf := [x, 0];
    assert !Queue(lf, 1) && !Queue(lf, 2) by {
      NoQueue(lf, 1);
      NoQueue(lf, 2);
    }
    var n, a, ot, b, of := RoundIs(lt, lf, 0, 0, 0, 0, 0);
    assert b == 1 && n == x;
    if a == |lt| {
      NoMoreTarget(lt, lf, a, ot, b, of, n);
    } else {
      var n2, a2, ot2, b2, of2 := RoundIs(lt, lf, a, ot, b, of, n);
      assert n2 == 0;
    }
  }

  lemma NoQueue(c: seq<nat>, i: nat)
    requires i + 1 >= |c|
    ensures !Queue(c, i)
  {
  }

  lemma TailSource(lt: seq<nat>, lf: seq<nat>)
    requires lt != [] && lf != [] && !Plain(lf) && |lf| == 2 && lf[0] <= lt[0]
    ensures CopyLoop(lt, lf, 0, 0, 0, 0, 0).0.Copied? <==> SourceFits(lt, lf) && TargetFits(lt, lf)
  {
    hide CopyLoop, LastFull, Queue;
    LastFullIs(lt);
    assert lf == [lf[0], 0];
    TwoRounds(lt, lf[0]);
    forall i: nat ensures Queue(lt, i) <==> LastFull(lt) <= i && i + 1 < |lt| {
      QueueIff(lt, i);
    }
    assert Total(lf) == lf[0] by {
      assert Before(lf, 1) == lf[0];
    }
    assert Before(lt, 1) == lt[0] && (|lt| >= 2 ==> Before(lt, 2) == lt[0] + lt[1]);
    var l := LastFull(lt);
    if l > 0 {
      BeforeGrows(lt, 1, l);
    }
    if l >= 3 {
      BeforeGrows(lt, 1, l - 2);
    }
  }

  /** When pbuf_copy succeeds, for chains of any lengths. */
  lemma CopyIff(lt: seq<nat>, lf: seq<nat>)
    requires lt != [] && lf != [] && Total(lt) >= Total(lf)
    ensures CopyLoop(lt, lf, 0, 0, 0, 0, 0).0.Copied? <==> SourceFits(lt, lf) && TargetFits(lt, lf)
  {
    hide CopyLoop, LastFull, Before, Queue;
    LastFullIs(lt);
    if !Plain(lf) {
      TwoPbufsAtMost(lt, lf);
      if |lf| == 2 && lf[0] <= lt[0] {
        TailSource(lt, lf);
      }
    } else if lf[|lf| - 1] == 0 {
      assert lf == [0];
      NothingToCopy(lt, lf);
    } else if !Plain(lt) && LastFull(lt) == 0 {
      OneFullPbuf(lt, lf);
    } else {
      Start(lt);
      Start(lf);
      PlainCopies(lt, lf, 0, 0, 0, 0, 0, LastFull(lt));
    }
  }

  lemma Start(c: seq<nat>)
    ensures Position(c, 0, 0, 0)
  {
  }

  /** A source of 3, 2 and 0 bytes stops in a target of 10 after 3. */
  lemma CopyStopsShort()
    ensures CopyLoop([10], [3, 2, 0], 0, 0, 0, 0, 0) == (ErrVal, 3)
  {
  }
}
