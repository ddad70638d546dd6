/** What the hardware makes of the kernel's page table once kvminit and procinit have run. */
module KernelTranslation {
  import opened Prelude
  import opened Riscv
  import opened PageTree
  import opened Heap
  import opened AddressSpace
  import opened PhysMem
  import opened KernelSpace
  import opened KernelStacks

  /** Page number v belongs to the stack of slot p: two pages further down for every slot, below the trampoline. */
  predicate StackAt(v: int, p: nat) {
    p < 64 && v == 0x3FF_FFFD - 2 * p
  }

  /** The slot whose stack is at page number v, if v is between the stacks of the first and the last slot. */
  function SlotOfStack(v: int): (r: int) {
    (0x3FF_FFFD - v) / 2
  }

  predicate IsStack(v: int) {
    0 <= SlotOfStack(v) && StackAt(v, SlotOfStack(v))
  }

  lemma StackSlot(v: int, p: nat)
    requires p < NPROC
    ensures v == StackVpn(p) ==> IsStack(v) && SlotOfStack(v) == p
  {
  }

  lemma NoStack(v: int)
    requires !IsStack(v)
    ensures forall p :: 0 <= p < NPROC ==> v != StackVpn(p)
  {
    forall p | 0 <= p < NPROC ensures v != StackVpn(p) { StackSlot(v, p); }
  }

  /**
   The 128 MB of memory and the UART (include/memlayout.h) at their own addresses, the stacks where
   procinit has put them, and nothing else.
  */
  function Expected(stacks: seq<Word>, va: Word): (r: Option<int>)
    requires |stacks| == NPROC
  {
    var v := va / PGSIZE;
    if 0x8000_0000 <= va < 0x8800_0000 || v == 0x1_0000 then Some(va)
    else if IsStack(v) then Some(stacks[SlotOfStack(v)] + va % PGSIZE)
    else None
  }

  lemma PageOfEntry(pa: Word, perm: int)
    requires LegalPermission(pa, perm)
    ensures Pte2Pa(LeafPte(pa, perm)) == EntryPage(pa, perm) * PGSIZE
    ensures perm % TWO64 < 1024 ==> EntryPage(pa, perm) * PGSIZE == PgRoundDown(pa)
  {
    LeafParts(pa, perm);
    PageFits(pa, perm);
    Unpack(EntryPage(pa, perm), EntryFlags(perm));
  }

  lemma KernelPermission(pa: Word, perm: int)
    requires pa < PHYSTOP && (perm == RX || perm == RW)
    ensures LegalPermission(pa, perm)
  {
  }

  /**
   A mapping to an aligned page below PHYSTOP with the permissions the kernel uses is legal, and leads
   where it should.
  */
  lemma KernelLeaf(pa: Word, perm: int)
    requires Aligned(pa) && pa < PHYSTOP && (perm == RX || perm == RW)
    ensures LegalLeaf(LeafPte(pa, perm)) && Pte2Pa(LeafPte(pa, perm)) == pa
  {
    KernelPermission(pa, perm);
    LegalLeafIff(pa, perm);
    PageOfEntry(pa, perm);
  }

  lemma LowTables(h: Heap, end: Word, pt: int)
    requires Rooted(h, pt) && Manages(h.pages, end)
    ensures Tree(h.mem, h.trees[pt]) && h.trees[pt][ROOT] == pt
    ensures forall k :: k in h.trees[pt] ==> h.trees[pt][k] < 0x100_0000_0000_0000
  {
    assert TreeAt(h, pt);
    forall k | k in h.trees[pt] ensures h.trees[pt][k] < 0x100_0000_0000_0000 {
      assert NodeOk(h.mem, h.trees[pt], k);
      PageBelow(h, end, h.trees[pt][k]);
    }
  }

  lemma PageBelow(h: Heap, end: Word, a: int)
    requires PagesOk(h) && Manages(h.pages, end) && a in h.pages
    ensures 0 < a < PHYSTOP && Aligned(a)
  {
    assert PageIn(h.mem, a);
    PageAddrs(a);
    assert Manageable(a, end);
  }

  lemma StackPages(h: Heap, end: Word, pt: int, etext: Word, stacks: seq<Word>, p: nat)
    requires TextEnds(etext) && Booted(h, pt, etext, stacks) && Manages(h.pages, end) && p < NPROC
    ensures Aligned(stacks[p]) && stacks[p] < PHYSTOP
  {
    assert stacks[p] in DataPages(h);
    PageBelow(h, end, stacks[p]);
  }

  /** The entry m has for va is what the hardware needs to find `to` there. */
  predicate Leads(m: map<int, Word>, v: int, va: Word, to: Option<int>) {
    if v in m then LegalLeaf(m[v]) && to == Some(Pte2Pa(m[v]) + va % PGSIZE) else to == None
  }

  lemma LeafLeads(m: map<int, Word>, v: int, va: Word, pa: Word, perm: int)
    requires Aligned(pa) && pa < PHYSTOP && (perm == RX || perm == RW) && v in m && m[v] == LeafPte(pa, perm)
    ensures Leads(m, v, va, Some(pa + va % PGSIZE))
  {
    KernelLeaf(pa, perm);
  }

  lemma KernelPages(etext: Word, stacks: seq<Word>, va: Word, v: int)
    requires TextEnds(etext) && |stacks| == NPROC && va < MAXVA && v == va / PGSIZE
    requires v in KernelMapping(etext)
    ensures Expected(stacks, va) == Some(v * PGSIZE + va % PGSIZE)
    ensures v * PGSIZE < PHYSTOP && forall p :: 0 <= p < NPROC ==> v != StackVpn(p)
  {
  }

  lemma PageBase(v: nat, a: Word)
    requires a == v * PGSIZE
    ensures Aligned(a)
  {
  }

  lemma OwnEntry(etext: Word, v: int) returns (pa: Word, perm: int)
    requires TextEnds(etext) && v in KernelMapping(etext)
    ensures pa == v * PGSIZE < PHYSTOP && Aligned(pa) && (perm == RX || perm == RW)
    ensures KernelMapping(etext)[v] == LeafPte(pa, perm)
  {
    pa, perm := v * PGSIZE, if KERNBASE <= v * PGSIZE < etext then RX else RW;
    PageBase(v, pa);
  }

  /** The page of va that the kernel has mapped at its own address. */
  lemma OwnPageLeads(etext: Word, stacks: seq<Word>, m: map<int, Word>, va: Word, v: int)
    requires TextEnds(etext) && |stacks| == NPROC && va < MAXVA && v == va / PGSIZE
    requires v in KernelMapping(etext) && v in m && m[v] == KernelMapping(etext)[v]
    ensures Leads(m, v, va, Expected(stacks, va))
  {
    KernelPages(etext, stacks, va, v);
    var pa, perm := OwnEntry(etext, v);
    LeafLeads(m, v, va, pa, perm);
  }

  /** A page of va that belongs to a stack. */
  lemma StackLeads(stacks: seq<Word>, m: map<int, Word>, va: Word, v: int)
    requires |stacks| == NPROC && va < MAXVA && v == va / PGSIZE && IsStack(v)
    requires Aligned(stacks[SlotOfStack(v)]) && stacks[SlotOfStack(v)] < PHYSTOP
    requires v in m && m[v] == LeafPte(stacks[SlotOfStack(v)], RW)
    ensures Leads(m, v, va, Expected(stacks, va))
  {
    LeafLeads(m, v, va, stacks[SlotOfStack(v)], RW);
  }

  lemma ExpectedEntry(etext: Word, stacks: seq<Word>, va: Word)
    requires TextEnds(etext) && |stacks| == NPROC && va < MAXVA
    requires forall p :: 0 <= p < NPROC ==> Aligned(stacks[p]) && stacks[p] < PHYSTOP
    ensures Leads(WithStacks(KernelMapping(etext), stacks), Vpn(va), va, Expected(stacks, va))
  {
    var v, m := va / PGSIZE, WithStacks(KernelMapping(etext), stacks);
    LowVpn(va);
    StacksMapped(KernelMapping(etext), stacks, v);
    if v in KernelMapping(etext) {
      KernelPages(etext, stacks, va, v);
      OwnPageLeads(etext, stacks, m, va, v);
    } else if IsStack(v) {
      StackLeads(stacks, m, va, v);
    } else {
      NoStack(v);
    }
  }

  /** Every address below MAXVA is translated to where it is expected, or faults. */
  lemma HardwareSeesKernel(h: Heap, end: Word, pt: int, etext: Word, stacks: seq<Word>, va: Word)
    requires TextEnds(etext) && Booted(h, pt, etext, stacks) && Manages(h.pages, end) && va < MAXVA
    ensures HwWalk(h.mem, pt, va, 2) == Expected(stacks, va)
  {
    LowTables(h, end, pt);
    HardwareAgrees(h.mem, h.trees[pt], va);
    forall p | 0 <= p < NPROC ensures Aligned(stacks[p]) && stacks[p] < PHYSTOP {
      StackPages(h, end, pt, etext, stacks, p);
    }
    ExpectedEntry(etext, stacks, va);
  }

  // ----- one page

  lemma WalkToEntry(h: Heap, end: Word, root: int, va: Word, w: Word)
    requires Rooted(h, root) && Manages(h.pages, end) && va < MAXVA
    requires Vpn(va) in MapOf(h, root) && MapOf(h, root)[Vpn(va)] == w
    ensures HwWalk(h.mem, root, va, 2) == if LegalLeaf(w) then Some(Pte2Pa(w) + va % PGSIZE) else None
  {
    LowTables(h, end, root);
    HardwareAgrees(h.mem, h.trees[root], va);
  }

  /** A permission within the flag bits leaves the address alone. */
  lemma FlagsOnly(pa: Word, perm: int)
    requires perm % TWO64 < 1024
    ensures EntryPage(pa, perm) * PGSIZE == PgRoundDown(pa)
  {
  }

  /**
   What map_page enters, the hardware uses if and only if the permissions and the address are
   legal; otherwise it faults there, although walk_lookup finds the entry.  It leads to the given
   page unless perm has bits beyond the flags.
  */
  lemma HardwareSeesPage(h: Heap, end: Word, root: int, va: Word, pa: Word, perm: int)
    requires Rooted(h, root) && Manages(h.pages, end) && va < MAXVA
    requires Vpn(va) in MapOf(h, root) && MapOf(h, root)[Vpn(va)] == LeafPte(pa, perm)
    ensures HwWalk(h.mem, root, va, 2) ==
            if LegalPermission(pa, perm) then Some(EntryPage(pa, perm) * PGSIZE + va % PGSIZE) else None
    ensures perm % TWO64 < 1024 ==> EntryPage(pa, perm) * PGSIZE == PgRoundDown(pa)
  {
    WalkToEntry(h, end, root, va, LeafPte(pa, perm));
    LegalLeafIff(pa, perm);
    if LegalPermission(pa, perm) { PageOfEntry(pa, perm); }
    if perm % TWO64 < 1024 { FlagsOnly(pa, perm); }
  }

  /** map_page does not check: an entry for writing alone, or for nothing, is valid and illegal. */
  lemma WriteOnlyIsIllegal(pa: Word)
    ensures Valid(LeafPte(pa, PTE_W)) && !LegalLeaf(LeafPte(pa, PTE_W))
    ensures Valid(LeafPte(pa, 0)) && !LegalLeaf(LeafPte(pa, 0))
  {
    LeafValid(pa, PTE_W);
    LeafValid(pa, 0);
    LegalLeafIff(pa, PTE_W);
    LegalLeafIff(pa, 0);
  }
}
