/**
 Paging constants, page table entries and address decomposition shared by the
 kernel and the user library (inc/mmu.h, inc/memlayout.h).
 */
module Mmu {
  import opened Common

  const NPDENTRIES: nat := 1024
  const NPTENTRIES: nat := 1024
  const UTOP: nat := 0xeec00000

  /** Frame numbers of the I/O hole, of extended memory, and of the boot code of the other processors. */
  const IOPHYSMEM: nat := 0xA0
  const EXTPHYSMEM: nat := 0x100
  const MPENTRY: nat := 7

  /** PDX(UTOP): directory entries below this index belong to the user. */
  const PDX_UTOP: nat := 955
  /** PDX(UVPT): the directory maps itself here. */
  const PDX_UVPT: nat := 957

  type Flags = bv12

  const PTE_P: Flags := 0x001
  const PTE_W: Flags := 0x002
  const PTE_U: Flags := 0x004
  /** PTE_AVAIL | PTE_P | PTE_W | PTE_U */
  const PTE_SYSCALL: Flags := 0xE07

  /** A 32-bit directory or table entry: PTE_ADDR >> 12 and the low 12 bits. */
  datatype Entry = Entry(frame: nat, flags: Flags)

  const ZERO: Entry := Entry(0, 0)

  predicate Has(flags: Flags, bit: Flags) {
    flags & bit != 0
  }

  function Or(a: Flags, b: Flags): Flags {
    a | b
  }

  predicate Present(x: Entry) {
    Has(x.flags, PTE_P)
  }

  /** Every bit of `low` is also set in `high`. */
  predicate Covers(high: Flags, low: Flags) {
    low & !high == 0
  }

  /** The check system calls make on `perm`. */
  predicate LegalPerm(perm: Flags) {
    && Has(perm, PTE_U)
    && Has(perm, PTE_P)
    && Covers(PTE_SYSCALL, perm)
  }

  /** Below the three bits left to software, that is user read-only or user writable, and nothing else. */
  lemma LegalPermIs(perm: Flags)
    ensures LegalPerm(perm) <==> perm & 0x1FF == PTE_P | PTE_U || perm & 0x1FF == PTE_P | PTE_U | PTE_W
  {
  }

  function Pdx(va: nat): (i: nat)
    ensures i < NPDENTRIES
  {
    va / (PGSIZE * NPTENTRIES) % NPDENTRIES
  }

  function Ptx(va: nat): (i: nat)
    ensures i < NPTENTRIES
  {
    va / PGSIZE % NPTENTRIES
  }

  function PgAddr(pdx: nat, ptx: nat): nat {
    pdx * (PGSIZE * NPTENTRIES) + ptx * PGSIZE
  }

  /** PGADDR inverts (PDX, PTX) on the page-aligned user addresses, and those are exactly the user slots. */
  lemma UserAddressesAreSlots(va: nat, pdx: nat, ptx: nat)
    ensures va < UTOP && va % PGSIZE == 0 ==>
              Pdx(va) < PDX_UTOP && Ptx(va) < NPTENTRIES && PgAddr(Pdx(va), Ptx(va)) == va
    ensures pdx < PDX_UTOP && ptx < NPTENTRIES ==>
              var a := PgAddr(pdx, ptx);
              a < UTOP && a % PGSIZE == 0 && Pdx(a) == pdx && Ptx(a) == ptx
  {
    if va < UTOP && va % PGSIZE == 0 {
      assert va / (PGSIZE * NPTENTRIES) == (va / PGSIZE) / NPTENTRIES;
      assert va == (va / PGSIZE) * PGSIZE;
    }
    if pdx < PDX_UTOP && ptx < NPTENTRIES {
      var a := PgAddr(pdx, ptx);
      assert a == (pdx * NPTENTRIES + ptx) * PGSIZE;
      assert a / PGSIZE == pdx * NPTENTRIES + ptx;
    }
  }

  lemma CoversBits(high: Flags, low: Flags, more: Flags)
    ensures Covers(high, high)
    ensures Covers(high, low) ==> Covers(Or(high, more), low)
    ensures Has(high, PTE_P) ==> Covers(Or(high, more), Or(more, PTE_P))
    ensures Has(high, PTE_P) ==> Has(Or(high, more), PTE_P)
    ensures Has(Or(more, PTE_P), PTE_P)
  {
  }

  /**
   The MMU grants an access only if both levels carry the bit (section 4.6 of
   Intel SDM volume 3A).  When the directory entry covers the table entry, the
   table entry alone decides.
   */
  lemma BothLevelsEqualTable(pde: Flags, pte: Flags, bit: Flags)
    requires Covers(pde, pte)
    requires bit == PTE_P || bit == PTE_W || bit == PTE_U
    ensures Has(pde, bit) && Has(pte, bit) <==> Has(pte, bit)
  {
  }
}
