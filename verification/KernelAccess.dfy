/**
 What the hardware lets the kernel do at each address: it fetches exactly from the text, and stores
 exactly to data, UART and stacks; and what it lets it do under the page table of a process.
*/
module KernelAccess {
  import opened Prelude
  import opened Riscv
  import opened PageTree
  import opened Heap
  import opened AddressSpace
  import opened PhysMem
  import opened KernelSpace
  import opened KernelStacks
  import opened KernelTranslation
  import opened ProcPages

  lemma LowBit16(n: nat, f: nat)
    ensures (n * 1024 + f) / 16 % 2 == f / 16 % 2
  {
    assert n * 1024 + f == 16 * (n * 64 + f / 16) + f % 16;
    assert (n * 1024 + f) / 16 == 2 * (n * 32) + f / 16;
    EvenPart(n * 32, f / 16);
  }

  /** The access rights of an entry are in its ten flag bits. */
  lemma RightsInFlags(pte: nat, kind: Access)
    requires pte < TWO64
    ensures Allows(pte, kind) <==> Allows(pte % 1024, kind)
  {
    LowBit2(pte / 1024, pte % 1024);
    LowBit4(pte / 1024, pte % 1024);
    LowBit8(pte / 1024, pte % 1024);
    LowBit16(pte / 1024, pte % 1024);
    assert pte == pte / 1024 * 1024 + pte % 1024;
  }

  lemma FlagsOfRX(pa: Word)
    ensures LeafPte(pa, RX) % 1024 == 11
  {
    PteRoundTrip(pa, RX);
  }

  lemma FlagsOfRW(pa: Word)
    ensures LeafPte(pa, RW) % 1024 == 7
  {
    PteRoundTrip(pa, RW);
  }

  /** PTE_R | PTE_X lets the kernel load and fetch, PTE_R | PTE_W lets it load and store. */
  lemma RightsOfLeaf(pa: Word, kind: Access)
    ensures Allows(LeafPte(pa, RX), kind) <==> kind != Store
    ensures Allows(LeafPte(pa, RW), kind) <==> kind != Fetch
  {
    FlagsOfRX(pa);
    FlagsOfRW(pa);
    RightsInFlags(LeafPte(pa, RX), kind);
    RightsInFlags(LeafPte(pa, RW), kind);
  }

  /** Page number v belongs to the kernel's text. */
  predicate IsText(etext: Word, v: int) {
    KERNBASE <= v * PGSIZE < etext
  }

  lemma EntryRights(etext: Word, stacks: seq<Word>, v: int, kind: Access)
    requires TextEnds(etext) && |stacks| == NPROC && v in WithStacks(KernelMapping(etext), stacks)
    ensures var pte := WithStacks(KernelMapping(etext), stacks)[v];
      Allows(pte, kind) <==> kind == Load || (if IsText(etext, v) then kind == Fetch else kind == Store)
  {
    StacksMapped(KernelMapping(etext), stacks, v);
    if v in KernelMapping(etext) {
      RightsOfLeaf(v * PGSIZE, kind);
    } else {
      var p :| 0 <= p < NPROC && v == StackVpn(p);
      RightsOfLeaf(stacks[p], kind);
    }
  }

  /**
   After boot: every page the kernel has mapped may be loaded from; a page may be executed if and only
   if it is text, and written if and only if it is not.
  */
  lemma KernelRights(h: Heap, pt: int, etext: Word, stacks: seq<Word>, v: int)
    requires TextEnds(etext) && Booted(h, pt, etext, stacks) && v in MapOf(h, pt)
    ensures Allows(MapOf(h, pt)[v], Load)
    ensures Allows(MapOf(h, pt)[v], Fetch) <==> IsText(etext, v)
    ensures Allows(MapOf(h, pt)[v], Store) <==> !IsText(etext, v)
  {
    EntryRights(etext, stacks, v, Load);
    EntryRights(etext, stacks, v, Fetch);
    EntryRights(etext, stacks, v, Store);
  }

  /** An access follows the walk if the entry for the address allows it. */
  lemma AccessAt(h: Heap, end: Word, root: int, va: Word, kind: Access)
    requires Rooted(h, root) && Manages(h.pages, end) && va < MAXVA
    ensures Vpn(va) !in MapOf(h, root) ==> HwAccess(h.mem, root, va, kind) == None
    ensures Vpn(va) in MapOf(h, root) ==>
      HwAccess(h.mem, root, va, kind) ==
      if Allows(MapOf(h, root)[Vpn(va)], kind) then HwWalk(h.mem, root, va, 2) else None
  {
    LowTables(h, end, root);
    HardwareFinds(h.mem, h.trees[root], va);
  }

  lemma TextPage(etext: Word, va: Word)
    requires TextEnds(etext) && va < MAXVA
    ensures IsText(etext, Vpn(va)) <==> KERNBASE <= va < etext
  {
    LowVpn(va);
  }

  /** The kernel fetches exactly from its text, loads from all it has mapped, and stores to all but the text. */
  lemma KernelAccesses(h: Heap, end: Word, pt: int, etext: Word, stacks: seq<Word>, va: Word, kind: Access)
    requires TextEnds(etext) && Booted(h, pt, etext, stacks) && Manages(h.pages, end) && va < MAXVA
    ensures HwAccess(h.mem, pt, va, kind) ==
            if kind == Load || ((kind == Fetch) <==> (KERNBASE <= va < etext)) then Expected(stacks, va) else None
  {
    HardwareSeesKernel(h, end, pt, etext, stacks, va);
    AccessAt(h, end, pt, va, kind);
    TextPage(etext, va);
    if Vpn(va) in MapOf(h, pt) {
      EntryRights(etext, stacks, Vpn(va), kind);
    } else {
      NothingExpected(h, end, pt, va);
    }
  }

  lemma NothingExpected(h: Heap, end: Word, root: int, va: Word)
    requires Rooted(h, root) && Manages(h.pages, end) && va < MAXVA && Vpn(va) !in MapOf(h, root)
    ensures HwWalk(h.mem, root, va, 2) == None
  {
    LowTables(h, end, root);
    HardwareFinds(h.mem, h.trees[root], va);
  }

  // ----- the page table of a process

  /** Where an access goes under the page table of a process; physical addresses have 56 bits. */
  function ProcExpected(trampoline: Word, va: Word, kind: Access): (r: Option<int>) {
    if va / PGSIZE == TRAMPOLINE / PGSIZE && kind != Store then
      if trampoline < 0x100_0000_0000_0000 then Some(trampoline + va % PGSIZE) else None
    else if va / PGSIZE == TRAPFRAME / PGSIZE && kind != Fetch then Some(PGSIZE + va % PGSIZE)
    else None
  }

  lemma ProcLeaf(pa: Word, perm: int)
    requires Aligned(pa) && (perm == RX || perm == RW)
    ensures LegalPermission(pa, perm) <==> pa < 0x100_0000_0000_0000
    ensures EntryPage(pa, perm) * PGSIZE == pa
  {
    FlagsOnly(pa, perm);
  }

  /** An access to a page that is mapped with the permissions of kernel pages. */
  lemma LeafAccess(h: Heap, end: Word, pt: int, va: Word, kind: Access, pa: Word, perm: int)
    requires Rooted(h, pt) && Manages(h.pages, end) && va < MAXVA && Aligned(pa) && (perm == RX || perm == RW)
    requires Vpn(va) in MapOf(h, pt) && MapOf(h, pt)[Vpn(va)] == LeafPte(pa, perm)
    ensures HwAccess(h.mem, pt, va, kind) ==
            if pa < 0x100_0000_0000_0000 && (kind == Load || (kind == Fetch) == (perm == RX))
            then Some(pa + va % PGSIZE) else None
  {
    AccessAt(h, end, pt, va, kind);
    HardwareSeesPage(h, end, pt, va, pa, perm);
    ProcLeaf(pa, perm);
    RightsOfLeaf(pa, kind);
  }

  lemma ProcVpns(va: Word)
    requires va < MAXVA
    ensures Vpn(va) == TRAMPOLINE_VPN <==> va / PGSIZE == TRAMPOLINE / PGSIZE
    ensures Vpn(va) == TRAPFRAME_VPN <==> va / PGSIZE == TRAPFRAME / PGSIZE
  {
    LowVpn(va);
  }

  /** A process's page table: the trampoline for loads and fetches, physical page 1 for loads and stores, no more. */
  lemma ProcAccesses(h: Heap, end: Word, pt: int, trampoline: Word, va: Word, kind: Access)
    requires Rooted(h, pt) && Manages(h.pages, end) && MapOf(h, pt) == ProcMapping(trampoline) && va < MAXVA
    requires Aligned(trampoline)
    ensures HwAccess(h.mem, pt, va, kind) == ProcExpected(trampoline, va, kind)
  {
    AccessAt(h, end, pt, va, kind);
    ProcVpns(va);
    if Vpn(va) == TRAMPOLINE_VPN {
      LeafAccess(h, end, pt, va, kind, trampoline, RX);
    } else if Vpn(va) == TRAPFRAME_VPN {
      LeafAccess(h, end, pt, va, kind, PGSIZE, RW);
    }
  }
}
