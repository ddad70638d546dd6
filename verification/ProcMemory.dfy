/** What processes take from the page allocator and give back (kernel/proc.c: alloc_process, free_process). */
module ProcMemory {
  import opened Prelude
  import opened Riscv
  import opened PageTree
  import opened Heap
  import opened AddressSpace
  import opened PageLists
  import opened PhysMem
  import opened KernelSpace
  import opened KernelStacks
  import opened Destroy
  import opened DestroyTree
  import opened ProcPages
  import opened KernelTranslation

  // ----- taking

  /** From h0 to h a process has got a trapframe and a page table. */
  ghost predicate Took(h0: Heap, h: Heap, trapframe: int, pt: int) {
    && HeapOk(h0) && ProcTree(h, pt) && pt !in h0.trees
    && Grew(h0, h, pt, {trapframe}) && trapframe in h0.pages && trapframe !in DataPages(h0)
    && |h0.free| >= 4 && h.free == h0.free[4..]
  }

  /** The pages of a process. */
  function PagesOf(h: Heap, trapframe: int, pt: int): (r: set<int>)
    requires pt in h.trees
  {
    {trapframe} + TablePages(h, pt)
  }

  lemma TableOwner(h: Heap, r: int, p: int)
    requires HeapOk(h) && p in h.owner
    ensures r in h.trees && p in TablePages(h, r) <==> IsTable(h, r, p)
  {
    if r in h.trees {
      assert TreeAt(h, r);
      if p in TablePages(h, r) { var k :| k in h.trees[r] && h.trees[r][k] == p; }
    }
    if IsTable(h, r, p) {
      assert TableAt(h, p);
      assert h.owner[p].key in h.trees[r];
    }
  }

  lemma TablePagesManaged(h: Heap, r: int)
    requires HeapOk(h) && r in h.trees
    ensures TablePages(h, r) <= h.owner.Keys
  {
    assert TreeAt(h, r);
  }

  /** The tables of another tree have not changed hands. */
  lemma OtherTable(h0: Heap, h: Heap, pt: int, r: int, p: int)
    requires HeapOk(h0) && HeapOk(h) && h0.pages == h.pages && r != pt && p in h.owner
    requires r in h0.trees ==> r in h.trees && h.trees[r] == h0.trees[r]
    requires r in h.trees ==> r in h0.trees
    ensures IsTable(h0, r, p) <==> IsTable(h, r, p)
  {
    TableOwner(h0, r, p);
    TableOwner(h, r, p);
  }

  lemma TookPage(h0: Heap, h: Heap, trapframe: int, pt: int, p: int)
    requires Took(h0, h, trapframe, pt) && p in h.owner
    ensures p in PagesOf(h, trapframe, pt) ==> h0.owner[p] == Owner.Free && h.owner[p] != Owner.Free
    ensures p !in PagesOf(h, trapframe, pt) ==> (h0.owner[p] == Owner.Free <==> h.owner[p] == Owner.Free)
  {
    TableOwner(h, pt, p);
    TableOwner(h0, pt, p);
    if h.owner[p].Table? && h.owner[p].root != pt { assert TableAt(h, p); OtherTable(h0, h, pt, h.owner[p].root, p); }
    if h0.owner[p].Table? { assert TableAt(h0, p); OtherTable(h0, h, pt, h0.owner[p].root, p); }
    assert p in DataPages(h) <==> p in DataPages(h0) || p == trapframe;
  }

  /** alloc_process takes the pages of the new process from the free list, and no others. */
  lemma TookPages(h0: Heap, h: Heap, trapframe: int, pt: int)
    requires Took(h0, h, trapframe, pt)
    ensures FreePages(h0) == FreePages(h) + PagesOf(h, trapframe, pt) && FreePages(h) !! PagesOf(h, trapframe, pt)
  {
    TablePagesManaged(h, pt);
    forall p | p in h.owner
      ensures p in FreePages(h0) <==> p in FreePages(h) || p in PagesOf(h, trapframe, pt)
      ensures p in FreePages(h) ==> p !in PagesOf(h, trapframe, pt)
    {
      TookPage(h0, h, trapframe, pt, p);
    }
  }

  // ----- giving back

  /** The pages behind p->trapframe and p->pagetable, either of which may be null. */
  ghost function PagesBehind(h: Heap, trapframe: int, pagetable: int): (r: set<int>)
    requires pagetable != 0 ==> pagetable in h.trees
  {
    (if trapframe != 0 then {trapframe} else {}) + (if pagetable != 0 then TablePages(h, pagetable) else {})
  }

  lemma OnePageFreed(h: Heap, p: int)
    requires h.mem.Keys == h.owner.Keys && p in h.owner
    ensures ReapedAll(h, Freed(h, p), {p})
  {
  }

  lemma NothingFreed(h: Heap)
    requires h.mem.Keys == h.owner.Keys
    ensures ReapedAll(h, h, {})
  {
  }

  lemma ReapedTwice(h: Heap, g: Heap, h': Heap, a: set<int>, b: set<int>)
    requires ReapedAll(h, g, a) && ReapedAll(g, h', b) && g.owner.Keys == h.owner.Keys
    ensures ReapedAll(h, h', a + b)
  {
    forall p | p in h.owner ensures PageReaped(h, h', p, p in a + b) {
      assert PageReaped(h, g, p, p in a) && PageReaped(g, h', p, p in b);
    }
  }

  lemma TreeAfterFree(h: Heap, p: int, pt: int)
    requires ProcTree(h, pt) && p in h.owner && h.owner[p] == Data
    ensures ProcTree(Freed(h, p), pt) && TablePages(Freed(h, p), pt) == TablePages(h, pt)
  {
    FreedOk(h, p);
  }

  /** What free_process relies on: the trapframe is a page in use, the page table one that alloc_process has made. */
  ghost predicate FreeReady(h: Heap, trapframe: int, pagetable: int) {
    && HeapOk(h)
    && (trapframe != 0 ==> trapframe in h.owner && h.owner[trapframe] == Data)
    && (pagetable != 0 ==> ProcTree(h, pagetable))
  }

  /** What it does then: from h to h' exactly the pages behind the two fields have been freed. */
  ghost predicate FreedProcess(h: Heap, h': Heap, trapframe: int, pagetable: int)
    requires FreeReady(h, trapframe, pagetable)
  {
    && HeapOk(h') && h'.owner.Keys == h.owner.Keys
    && h'.trees == h.trees - (if pagetable != 0 then {pagetable} else {})
    && ReapedAll(h, h', PagesBehind(h, trapframe, pagetable))
  }

  /** free_process, as far as pages go. */
  method FreeProcess(ram: Ram, trapframe: Word, pagetable: int) returns (r: Outcome)
    requires ram.Managed() && FreeReady(ram.View(), trapframe, pagetable)
    modifies ram
    ensures r.Done? && ram.Valid() && FreedProcess(old(ram.View()), ram.View(), trapframe, pagetable)
    ensures trapframe == 0 && pagetable == 0 ==> ram.View() == old(ram.View())
  {
    ghost var h := ram.View();
    r := Done;
    NothingFreed(h);
    if trapframe != 0 {
      if pagetable != 0 { TreeAfterFree(h, trapframe, pagetable); }
      assert Manageable(trapframe, ram.end);
      OnePageFreed(h, trapframe);
      r := ram.FreePage(trapframe);
    }
    ghost var g := ram.View();
    NothingFreed(g);
    if pagetable != 0 {
      r := ProcFreePagetable(ram, pagetable);
    }
    ReapedTwice(h, g, ram.View(), if trapframe != 0 then {trapframe} else {},
                if pagetable != 0 then TablePages(h, pagetable) else {});
  }

  // ----- alloc_process

  lemma TookGrew(h0: Heap, h: Heap, pt: int)
    requires HeapOk(h0) && h0.free != [] && pt !in h0.trees && OthersSame(Allocated(h0), h, pt)
    ensures Grew(h0, h, pt, {h0.free[0]})
  {
    AllocatedData(h0, pt);
    OthersGrew(Allocated(h0), h, pt);
    GrewTrans(h0, Allocated(h0), h, pt, {h0.free[0]}, {});
    assert {h0.free[0]} + {} == {h0.free[0]};
  }

  lemma TwoKeys(trampoline: Word)
    ensures ProcMapping(trampoline).Keys == {TRAMPOLINE_VPN, TRAPFRAME_VPN}
  {
  }

  lemma TookStage(h0: Heap, h: Heap, pt: int, trampoline: Word)
    requires HeapOk(h0) && h0.free != [] && pt !in h0.trees
    requires Stage(Allocated(h0), h, pt, ProcMapping(trampoline), StackKeys(), 3)
    ensures Took(h0, h, h0.free[0], pt)
  {
    AllocatedData(h0, pt);
    TookGrew(h0, h, pt);
    TwoKeys(trampoline);
    DropDrop(h0.free, 1, 3);
  }

  lemma AllocatedData(h: Heap, root: int)
    requires HeapOk(h) && h.free != [] && root !in h.trees
    ensures Grew(h, Allocated(h), root, {h.free[0]}) && h.free[0] in h.pages && h.free[0] !in DataPages(h)
  {
    AllocatedOk(h);
    assert h.free[0] in h.free && PageIn(h.mem, h.free[0]);
  }

  lemma BackAgain(h0: Heap, h: Heap, h': Heap)
    requires HeapOk(h0) && h0.free != [] && h.owner == Allocated(h0).owner &&
      h'.owner.Keys == h.owner.Keys
    requires ReapedAll(h, h', {h0.free[0]}) && InUseKept(Allocated(h0), h)
    ensures h'.owner == h0.owner && InUseKept(h0, h')
  {
    assert h0.free[0] in h0.free;
    forall p | p in h0.owner ensures h'.owner[p] == h0.owner[p] {
      assert p in h.owner && PageReaped(h, h', p, p in {h0.free[0]});
    }
    assert h'.owner.Keys == h0.owner.Keys;
    assert h'.owner == h0.owner;
    forall p | p in h0.owner ensures KeptAt(h0, h', p) {
      assert p in h.owner && PageReaped(h, h', p, p in {h0.free[0]}) && KeptAt(Allocated(h0), h, p);
    }
  }

  /** alloc_process when proc_pagetable returns null: free_process returns the trapframe. */
  method PutBack(ram: Ram, trapframe: Word, ghost h0: Heap)
    requires ram.Valid() && ram.Managed() && HeapOk(h0) && h0.free != [] && trapframe == h0.free[0] != 0
    requires ram.owner == Allocated(h0).owner && InUseKept(Allocated(h0), ram.View())
    modifies ram
    ensures ram.Valid() && ram.trees == old(ram.trees) && ram.owner == h0.owner && InUseKept(h0, ram.View())
    ensures FreePages(ram.View()) == FreePages(h0) && |ram.free| == |h0.free|
  {
    assert trapframe in h0.free;
    var r := FreeProcess(ram, trapframe, 0);
    BackAgain(h0, old(ram.View()), ram.View());
    SameFreePages(h0, ram.View());
  }

  /** alloc_process has got four pages, with the two mappings of a process. */
  ghost predicate AllocatedProcess(h: Heap, h': Heap, trampoline: Word, trapframe: int, pagetable: int) {
    && trapframe != 0 && pagetable != 0 && Took(h, h', trapframe, pagetable)
    && MapOf(h', pagetable) == ProcMapping(trampoline)
  }

  /**
   The page handling of alloc_process.  With a page-aligned trampoline it fails only for lack of
   pages, which is a panic; otherwise it returns null and has lost no page.
  */
  method AllocProcess(ram: Ram, trampoline: Word) returns (r: Outcome, trapframe: int, pagetable: int)
    requires ram.Valid() && ram.Managed()
    modifies ram
    ensures r.Done? <==> |old(ram.free)| >= (if Aligned(trampoline) then 4 else 2)
    ensures r.Done? && Aligned(trampoline) ==>
      && trapframe == old(ram.free)[0]
      && AllocatedProcess(old(ram.View()), ram.View(), trampoline, trapframe, pagetable)
    ensures r.Done? && !Aligned(trampoline) ==>
      && trapframe == 0 && pagetable == 0 && ram.Valid() && ram.trees == old(ram.trees)
      && ram.owner == old(ram.owner) && InUseKept(old(ram.View()), ram.View())
      && FreePages(ram.View()) == FreePages(old(ram.View())) && |ram.free| == |old(ram.free)|
  {
    ghost var h0 := ram.View();
    r, trapframe := ram.AllocPage();
    pagetable := 0;
    if r.Panicked? {
      return;
    }
    PageOfHeap(h0);
    AllocatedOk(h0);
    r, pagetable := ProcPagetable(ram, trampoline);
    if r.Panicked? {
      return;
    }
    if pagetable == 0 {
      PutBack(ram, trapframe, h0);
      return r, 0, 0;
    }
    TookStage(h0, ram.View(), pagetable, trampoline);
  }

  // ----- what the hardware finds at TRAPFRAME

  lemma TrapframeAddress(off: nat)
    requires off < PGSIZE
    ensures Vpn(TRAPFRAME + off) == TRAPFRAME_VPN && (TRAPFRAME + off) % PGSIZE == off
    ensures LegalPermission(PGSIZE, RW) && PgRoundDown(PGSIZE) == PGSIZE
  {
  }

  /** The trapframe address of a process leads to physical page 1, and never to its trapframe. */
  lemma TrapframeMissed(h: Heap, end: Word, pt: int, trampoline: Word, trapframe: int, off: nat)
    requires Rooted(h, pt) && Manages(h.pages, end) && MapOf(h, pt) == ProcMapping(trampoline)
    requires trapframe in h.pages && off < PGSIZE
    ensures HwWalk(h.mem, pt, TRAPFRAME + off, 2) == Some(PGSIZE + off)
    ensures trapframe >= KERNBASE > PGSIZE + off
  {
    TrapframeAddress(off);
    HardwareSeesPage(h, end, pt, TRAPFRAME + off, PGSIZE, RW);
    assert Manageable(trapframe, end);
  }
}
