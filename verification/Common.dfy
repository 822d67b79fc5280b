/** Definitions that several parts share. */
module Common {
  /** The size of a page, and of a disk block. */
  const PGSIZE: nat := 4096
  const BLKSIZE: nat := PGSIZE

  /** The bytes of a disk block. */
  type Block = seq<nat>

  const NENV: nat := 1024

  /** env_status */
  datatype Status = Free | Dying | Runnable | Running | NotRunnable

  /** The signed 32-bit integer with the low 32 bits of x. */
  function Int32(x: int): int {
    var y := x % 0x1_0000_0000;
    if y >= 0x8000_0000 then y - 0x1_0000_0000 else y
  }

  function Min(a: nat, b: nat): nat {
    if a < b then a else b
  }

  ghost predicate NoDup(xs: seq<nat>) {
    forall i, j :: 0 <= i < j < |xs| ==> xs[i] != xs[j]
  }

  /** `data` in place of the bytes of s from o on: memmove. */
  function Splice(s: seq<nat>, o: nat, data: seq<nat>): (r: seq<nat>)
    requires o + |data| <= |s|
    ensures |r| == |s|
  {
    s[..o] + data + s[o + |data|..]
  }
}
