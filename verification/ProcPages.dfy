/**
 The pages of a process (kernel/proc.c): proc_pagetable, proc_freepagetable, and the page handling of
 alloc_process and free_process.
*/
module ProcPages {
  import opened Prelude
  import opened Riscv
  import opened PageTree
  import opened Heap
  import opened AddressSpace
  import opened PageLists
  import opened PhysMem
  import opened KernelSpace
  import opened KernelStacks
  import opened Destroy
  import opened DestroyTree

  const TRAMPOLINE_VPN: PageNo := 0x3FF_FFFF
  const TRAPFRAME_VPN: PageNo := 0x3FF_FFFE

  /** The page table of a process: two mappings, which share their tables. */
  ghost predicate ProcTree(h: Heap, root: int) {
    Rooted(h, root) && MapOf(h, root).Keys == {TRAMPOLINE_VPN, TRAPFRAME_VPN} && h.trees[root].Keys == StackKeys()
  }

  function TablePages(h: Heap, root: int): (r: set<int>)
    requires root in h.trees
  {
    set k | k in h.trees[root] :: h.trees[root][k]
  }

  /** What proc_pagetable maps: the trapframe's address leads to physical page 1, not to p->trapframe. */
  function ProcMapping(trampoline: Word): (r: map<int, Word>) {
    TrampolineMapping(trampoline)[TRAPFRAME_VPN := LeafPte(PGSIZE, RW)]
  }

  function TrampolineMapping(trampoline: Word): (r: map<int, Word>) {
    map[TRAMPOLINE_VPN := LeafPte(trampoline, RX)]
  }

  lemma ProcPaths()
    ensures PathBelow(TRAMPOLINE_VPN, 2) == StackKeys() && PathBelow(TRAPFRAME_VPN, 2) == StackKeys()
    ensures |StackKeys() - {ROOT}| == 2 && {ROOT} + StackKeys() == StackKeys()
    ensures |StackKeys() - StackKeys()| == 0 && StackKeys() + StackKeys() == StackKeys()
  {
    OnePathKeys(TRAMPOLINE_VPN);
    OnePathKeys(TRAPFRAME_VPN);
    assert Span(1, 255, 255) == {Key(1, 255)} && Span(0, 0x1_FFFF, 0x1_FFFF) == {Key(0, 0x1_FFFF)};
    assert StackKeys() - {ROOT} == {Key(1, 255), Key(0, 0x1_FFFF)};
    assert StackKeys() - StackKeys() == {};
  }

  lemma ProcAddresses()
    ensures Vpn(TRAMPOLINE) == TRAMPOLINE_VPN && Vpn(TRAPFRAME) == TRAPFRAME_VPN
    ensures Aligned(TRAMPOLINE) && Aligned(TRAPFRAME) && Aligned(PGSIZE)
  {
  }

  /** The first mapping needs two tables, the second none. */
  lemma ProcRoom(h: Heap, root: int)
    requires root in h.trees
    ensures MapOf(h, root) == map[] && h.trees[root].Keys == {ROOT} ==>
      (CanMap(h, root, TRAMPOLINE_VPN) <==> |h.free| >= 2)
    ensures MapOf(h, root).Keys == {TRAMPOLINE_VPN} && h.trees[root].Keys == StackKeys() ==>
      CanMap(h, root, TRAPFRAME_VPN)
  {
    ProcPaths();
  }

  lemma FirstMapped(h0: Heap, h: Heap, g: Heap, root: int, w: Word)
    requires Stage(h0, h, root, map[], {ROOT}, 1) && MapsOne(h, g, root, TRAMPOLINE_VPN, w)
    ensures Stage(h0, g, root, map[TRAMPOLINE_VPN := w], StackKeys(), 3)
  {
    ProcPaths();
    OthersTrans(h0, h, g, root);
    DropDrop(h0.free, 1, 2);
  }

  lemma SecondMapped(h0: Heap, h: Heap, g: Heap, root: int, m: map<int, Word>, x: Word)
    requires Stage(h0, h, root, m, StackKeys(), 3) && MapsOne(h, g, root, TRAPFRAME_VPN, x)
    ensures Stage(h0, g, root, m[TRAPFRAME_VPN := x], StackKeys(), 3)
  {
    ProcPaths();
    OthersTrans(h0, h, g, root);
    DropDrop(h0.free, 3, 0);
  }

  /** An empty tree consists of its root. */
  lemma EmptyTreePages(h: Heap, root: int)
    requires Rooted(h, root) && MapOf(h, root) == map[]
    ensures Destroyable(h, root) && AllManaged(h, root)
    ensures Victims(h, root) == TablePages(h, root)
  {
    assert TreeAt(h, root);
    forall p | p in Victims(h, root) ensures p in TablePages(h, root) {
      assert !IsLeaf(h, root, p);
      assert TableAt(h, p);
      assert h.owner[p].key in h.trees[root];
    }
    forall p | p in TablePages(h, root) ensures p in Victims(h, root) {
      var k :| k in h.trees[root] && h.trees[root][k] == p;
      assert IsTable(h, root, p);
    }
  }

  lemma FirstOfList(free: seq<int>)
    requires free != []
    ensures (set p | p in free) == (set p | p in free[1..]) + {free[0]}
  {
    assert free == [free[0]] + free[1..];
  }

  lemma RootPages(h0: Heap, root: int)
    requires HeapOk(h0) && h0.free != [] && root == h0.free[0]
    ensures TablePages(Created(h0), root) == {root} && FreePages(h0) == FreePages(Created(h0)) + {root}
  {
    var h := Created(h0);
    assert h.trees[root] == map[ROOT := root];
    assert ROOT in h.trees[root] && h.trees[root][ROOT] == root;
    FirstOfList(h0.free);
    assert FreePages(h) == set p | p in h0.free[1..];
  }

  ghost predicate KeptAt(h0: Heap, h: Heap, p: int)
    requires p in h0.owner
  {
    h0.owner[p] != Owner.Free ==> p in h0.mem && p in h.mem && h.mem[p] == h0.mem[p]
  }

  /** The pages that were in use have their contents. */
  ghost predicate InUseKept(h0: Heap, h: Heap) {
    forall p :: p in h0.owner ==> KeptAt(h0, h, p)
  }

  lemma CreatedAndDestroyed(h0: Heap, h: Heap, root: int)
    requires HeapOk(h0) && h0.free != [] && root == h0.free[0] && Destroyable(Created(h0), root)
    requires h.owner.Keys == Created(h0).owner.Keys
    requires MapOf(Created(h0), root) == map[] && ReapedAll(Created(h0), h, Victims(Created(h0), root))
    ensures h.owner == h0.owner && InUseKept(h0, h)
  {
    EmptyTreePages(Created(h0), root);
    RootPages(h0, root);
    assert root in h0.free;
    forall p | p in h0.owner ensures h.owner[p] == h0.owner[p] {
      assert PageReaped(Created(h0), h, p, p in {root});
    }
    assert h.owner.Keys == h0.owner.Keys;
    assert h.owner == h0.owner;
    forall p | p in h0.owner ensures KeptAt(h0, h, p) {
      assert PageReaped(Created(h0), h, p, p in {root});
    }
  }

  /** The same owners make the same free pages, in whatever order. */
  lemma SameFreePages(h0: Heap, h: Heap)
    requires HeapOk(h0) && HeapOk(h) && h.owner == h0.owner
    ensures FreePages(h) == FreePages(h0) && |h.free| == |h0.free|
  {
    assert FreePages(h) == FreePages(h0);
    DistinctCount(h.free);
    DistinctCount(h0.free);
  }

  /** proc_pagetable when the trampoline cannot be mapped: the tree is destroyed again. */
  method GiveUp(ram: Ram, pt: int, ghost h0: Heap)
    requires ram.Managed() && HeapOk(h0) && h0.free != [] && pt == h0.free[0] && ram.View() == Created(h0) &&
      h0.pages == ram.pages
    modifies ram
    ensures ram.Valid() && ram.trees == h0.trees && ram.owner == h0.owner && InUseKept(h0, ram.View())
  {
    CreatedStage(h0);
    EmptyTreePages(Created(h0), pt);
    CreatedTrees(h0);
    var r := DestroyPagetable(ram, pt);
    CreatedAndDestroyed(h0, ram.View(), pt);
  }

  lemma CreatedTrees(h0: Heap)
    requires HeapOk(h0) && h0.free != []
    ensures Created(h0).trees - {h0.free[0]} == h0.trees
  {
    CreatedOk(h0);
  }

  /** map_page(pagetable, TRAMPOLINE, trampoline, PTE_R | PTE_X) */
  method MapTrampoline(ram: Ram, pt: int, trampoline: Word, ghost h0: Heap) returns (r: Outcome, res: int)
    requires Stage(h0, ram.View(), pt, map[], {ROOT}, 1)
    modifies ram
    ensures r.Panicked? ==> Aligned(trampoline) && |h0.free| < 3
    ensures r.Done? ==> (res < 0 <==> !Aligned(trampoline))
    ensures r.Done? && res < 0 ==> ram.View() == old(ram.View())
    ensures r.Done? && res >= 0 ==> |h0.free| >= 3
    ensures r.Done? && res >= 0 ==> Stage(h0, ram.View(), pt, TrampolineMapping(trampoline), StackKeys(), 3)
  {
    ghost var h1 := ram.View();
    ProcAddresses();
    ProcRoom(h1, pt);
    r, res := ram.MapPage(pt, TRAMPOLINE, trampoline, RX);
    if r.Done? && res >= 0 { FirstMapped(h0, h1, ram.View(), pt, LeafPte(trampoline, RX)); }
  }

  /** map_page(pagetable, TRAPFRAME, PGSIZE, PTE_R | PTE_W): it cannot fail, since the tables are there already. */
  method MapTrapframe(ram: Ram, pt: int, ghost h0: Heap, ghost m: map<int, Word>, ghost m': map<int, Word>)
    returns (r: Outcome, res: int)
    requires Stage(h0, ram.View(), pt, m, StackKeys(), 3) && m.Keys == {TRAMPOLINE_VPN}
    requires m' == m[TRAPFRAME_VPN := LeafPte(PGSIZE, RW)]
    modifies ram
    ensures r.Done? && res == 0
    ensures Stage(h0, ram.View(), pt, m', StackKeys(), 3)
  {
    ghost var h2 := ram.View();
    ProcAddresses();
    ProcRoom(h2, pt);
    r, res := ram.MapPage(pt, TRAPFRAME, PGSIZE, RW);
    SecondMapped(h0, h2, ram.View(), pt, m, LeafPte(PGSIZE, RW));
  }

  lemma TwoMappings(trampoline: Word, m: map<int, Word>, m': map<int, Word>)
    requires m == TrampolineMapping(trampoline) && m' == ProcMapping(trampoline)
    ensures m.Keys == {TRAMPOLINE_VPN} && m' == m[TRAPFRAME_VPN := LeafPte(PGSIZE, RW)]
  {
  }

  /** proc_pagetable; null if the trampoline is not page aligned, and then the pages that were free are free again. */
  method ProcPagetable(ram: Ram, trampoline: Word) returns (r: Outcome, pt: int)
    requires ram.Valid() && ram.Managed()
    modifies ram
    ensures r.Done? <==> |old(ram.free)| >= (if Aligned(trampoline) then 3 else 1)
    ensures r.Done? && Aligned(trampoline) ==>
      pt !in old(ram.trees) && Stage(old(ram.View()), ram.View(), pt, ProcMapping(trampoline), StackKeys(), 3)
    ensures r.Done? && !Aligned(trampoline) ==>
      && pt == 0 && ram.Valid() && ram.trees == old(ram.trees) && ram.owner == old(ram.owner)
      && InUseKept(old(ram.View()), ram.View())
  {
    ghost var h0 := ram.View();
    r, pt := ram.CreatePagetable();
    if r.Panicked? {
      return;
    }
    CreatedStage(h0);
    var res;
    r, res := MapTrampoline(ram, pt, trampoline, h0);
    if r.Panicked? {
      return;
    }
    if res < 0 {
      GiveUp(ram, pt, h0);
      return r, 0;
    }
    TwoMappings(trampoline, TrampolineMapping(trampoline), ProcMapping(trampoline));
    r, res := MapTrapframe(ram, pt, h0, TrampolineMapping(trampoline), ProcMapping(trampoline));
  }

  /** Clearing an entry writes to one table of the tree only. */
  lemma WriteLeafWhere(h: Heap, root: int, v: int, w: Word)
    requires Rooted(h, root) && 0 <= v < VPNS && PathKey(v, 0) in h.trees[root]
    ensures var g := WriteLeaf(h, root, v, w);
      && g.trees == h.trees && g.owner == h.owner && g.pages == h.pages && g.mem.Keys == h.mem.Keys
      && forall p :: p in h.mem && p !in TablePages(h, root) ==> g.mem[p] == h.mem[p]
  {
    assert TreeAt(h, root);
    assert h.trees[root][PathKey(v, 0)] in TablePages(h, root);
  }

  method UnmapBoth(ram: Ram, pt: int) returns (r: Outcome)
    requires ProcTree(ram.View(), pt)
    modifies ram
    ensures r.Done? && Rooted(ram.View(), pt) && MapOf(ram.View(), pt) == map[]
    ensures ram.trees == old(ram.trees) && ram.owner == old(ram.owner) &&
      ram.mem.Keys == old(ram.mem).Keys == ram.owner.Keys
    ensures forall p :: p in ram.mem && p !in TablePages(old(ram.View()), pt) ==> ram.mem[p] == old(ram.mem)[p]
  {
    ProcAddresses();
    WriteLeafReady(ram.View(), pt, TRAMPOLINE_VPN);
    r := ram.UnmapPage(pt, TRAMPOLINE);
    WriteLeafWhere(old(ram.View()), pt, TRAMPOLINE_VPN, 0);
    ghost var h1 := ram.View();
    WriteLeafReady(h1, pt, TRAPFRAME_VPN);
    r := ram.UnmapPage(pt, TRAPFRAME);
    WriteLeafWhere(h1, pt, TRAPFRAME_VPN, 0);
  }

  lemma WriteLeafReady(h: Heap, root: int, v: int)
    requires Rooted(h, root) && 0 <= v < VPNS && v in MapOf(h, root)
    ensures PathKey(v, 0) in h.trees[root] && h.mem.Keys == h.owner.Keys
  {
    NoTableNoEntry(h, root, v);
  }

  /** proc_freepagetable: the leaves go first, so that only the tables are freed. */
  method ProcFreePagetable(ram: Ram, pt: int) returns (r: Outcome)
    requires ram.Managed() && ProcTree(ram.View(), pt)
    modifies ram
    ensures r.Done? && ram.Valid() && ram.trees == old(ram.trees) - {pt} && ram.owner.Keys == old(ram.owner).Keys
    ensures ReapedAll(old(ram.View()), ram.View(), TablePages(old(ram.View()), pt))
  {
    ghost var h0 := ram.View();
    r := UnmapBoth(ram, pt);
    ghost var h2 := ram.View();
    EmptyTreePages(h2, pt);
    r := DestroyPagetable(ram, pt);
    UnmappedReaped(h0, h2, ram.View(), pt);
  }

  lemma UnmappedReaped(h0: Heap, h2: Heap, h: Heap, root: int)
    requires root in h0.trees && h0.trees == h2.trees && h0.owner == h2.owner &&
      h0.mem.Keys == h2.mem.Keys == h0.owner.Keys
    requires forall p :: p in h2.mem && p !in TablePages(h0, root) ==> h2.mem[p] == h0.mem[p]
    requires ReapedAll(h2, h, TablePages(h2, root))
    ensures ReapedAll(h0, h, TablePages(h0, root))
  {
    forall p | p in h0.owner ensures PageReaped(h0, h, p, p in TablePages(h0, root)) {
      assert PageReaped(h2, h, p, p in TablePages(h2, root));
    }
  }
}
