/** The free-block bitmap (fs/fs.c): 32 blocks to a word, a set bit means free. */
module FsBitmap {
  import opened FsLayout

  predicate BitAt(w: bv32, k: bv5) {
    w & (1 << k) != 0
  }

  function SetAt(w: bv32, k: bv5): bv32 {
    w | (1 << k)
  }

  function ClearAt(w: bv32, k: bv5): bv32 {
    w & !(1 << k)
  }

  function Index(k: nat): bv5
    requires k < 32
  {
    k as bv5
  }

  predicate Bit(w: bv32, k: nat)
    requires k < 32
  {
    BitAt(w, Index(k))
  }

  function SetBit(w: bv32, k: nat): bv32
    requires k < 32
  {
    SetAt(w, Index(k))
  }

  function ClearBit(w: bv32, k: nat): bv32
    requires k < 32
  {
    ClearAt(w, Index(k))
  }

  lemma OrBit(w: bv32, i: bv5, j: bv5)
    ensures BitAt(w | (1 << i), j) <==> i == j || BitAt(w, j)
  {
  }

  lemma AndNotBit(w: bv32, i: bv5, j: bv5)
    ensures BitAt(w & !(1 << i), j) <==> i != j && BitAt(w, j)
  {
  }

  lemma SetAtIs(w: bv32, i: bv5, j: bv5)
    ensures BitAt(SetAt(w, i), j) <==> i == j || BitAt(w, j)
  {
    hide BitAt;
    OrBit(w, i, j);
  }

  lemma ClearAtIs(w: bv32, i: bv5, j: bv5)
    ensures BitAt(ClearAt(w, i), j) <==> i != j && BitAt(w, j)
  {
    hide BitAt;
    AndNotBit(w, i, j);
  }

  lemma SameIndex(i: nat, j: nat)
    requires i < 32 && j < 32
    ensures Index(i) == Index(j) <==> i == j
  {
  }

  lemma SetBitIs(w: bv32, i: nat, j: nat)
    requires i < 32 && j < 32
    ensures Bit(SetBit(w, i), j) <==> i == j || Bit(w, j)
  {
    hide BitAt, SetAt, Index;
    SameIndex(i, j);
    SetAtIs(w, Index(i), Index(j));
  }

  lemma ClearBitIs(w: bv32, i: nat, j: nat)
    requires i < 32 && j < 32
    ensures Bit(ClearBit(w, i), j) <==> i != j && Bit(w, j)
  {
    hide BitAt, ClearAt, Index;
    SameIndex(i, j);
    ClearAtIs(w, Index(i), Index(j));
  }

  /** block_is_free, for a block number below s_nblocks. */
  predicate IsFree(bitmap: seq<bv32>, b: nat) {
    b / 32 < |bitmap| && Bit(bitmap[b / 32], b % 32)
  }

  ghost function FreeSet(bitmap: seq<bv32>, n: nat): set<nat> {
    set b | 0 <= b < n && IsFree(bitmap, b)
  }

  function Marked(bitmap: seq<bv32>, b: nat): (r: seq<bv32>)
    requires b / 32 < |bitmap|
    ensures |r| == |bitmap|
  {
    bitmap[b / 32 := SetBit(bitmap[b / 32], b % 32)]
  }

  function Unmarked(bitmap: seq<bv32>, b: nat): (r: seq<bv32>)
    requires b / 32 < |bitmap|
    ensures |r| == |bitmap|
  {
    bitmap[b / 32 := ClearBit(bitmap[b / 32], b % 32)]
  }

  lemma SamePlace(b: nat, c: nat)
    requires b / 32 == c / 32 && b % 32 == c % 32
    ensures b == c
  {
  }

  lemma MarkedIs(bitmap: seq<bv32>, b: nat, c: nat)
    requires b / 32 < |bitmap|
    ensures IsFree(Marked(bitmap, b), c) <==> c == b || IsFree(bitmap, c)
  {
    hide Bit, SetBit;
    if b / 32 == c / 32 {
      SetBitIs(bitmap[b / 32], b % 32, c % 32);
      if b % 32 == c % 32 {
        SamePlace(b, c);
      }
    }
  }

  lemma UnmarkedIs(bitmap: seq<bv32>, b: nat, c: nat)
    requires b / 32 < |bitmap|
    ensures IsFree(Unmarked(bitmap, b), c) <==> c != b && IsFree(bitmap, c)
  {
    hide Bit, ClearBit;
    if b / 32 == c / 32 {
      ClearBitIs(bitmap[b / 32], b % 32, c % 32);
      if b % 32 == c % 32 {
        SamePlace(b, c);
      }
    }
  }

  /** Setting and clearing one bit adds and removes exactly one block. */
  lemma MarkedSet(bitmap: seq<bv32>, n: nat, b: nat)
    requires b < n <= 32 * |bitmap|
    ensures FreeSet(Marked(bitmap, b), n) == FreeSet(bitmap, n) + {b}
    ensures FreeSet(Unmarked(bitmap, b), n) == FreeSet(bitmap, n) - {b}
  {
    hide Marked, Unmarked, IsFree;
    forall c | 0 <= c < n
      ensures c in FreeSet(Marked(bitmap, b), n) <==> c == b || c in FreeSet(bitmap, n)
      ensures c in FreeSet(Unmarked(bitmap, b), n) <==> c != b && c in FreeSet(bitmap, n)
    {
      MarkedIs(bitmap, b, c);
      UnmarkedIs(bitmap, b, c);
    }
  }

  /** A zero word holds no free block. */
  lemma ZeroWordSkips(bitmap: seq<bv32>, n: nat, b: nat)
    requires b < n <= 32 * |bitmap| && b % 32 == 0 && bitmap[b / 32] == 0
    ensures forall c :: b <= c < b + 32 ==> c !in FreeSet(bitmap, n)
  {
  }

  lemma {:induction false} LowestSkips(free: set<nat>, b: nat, c: nat, n: nat)
    requires b <= c && forall d :: b <= d < c ==> d !in free
    ensures LowestFrom(free, b, n) == LowestFrom(free, c, n)
    decreases c - b
  {
  }
}
