/**
 Physical memory as the kernel updates it: the page allocator of kernel/mm/kalloc.c and the page
 table code of kernel/mm/vm.c, on one store that holds free-list links, tables and data alike.
*/
module PhysMem {
  import opened Prelude
  import opened Riscv
  import opened PageTree
  import opened Heap
  import opened AddressSpace

  /** The address of a page table entry. */
  datatype PtePtr = PtePtr(page: int, index: nat)

  class Ram {
    const end: Word      // first address after the kernel image
    ghost const pages: set<int>
    var mem: Mem
    var freelist: int    // kmem.freelist
    ghost var free: seq<int>
    ghost var owner: map<int, Owner>
    ghost var trees: map<int, Tables>

    ghost function View(): (r: Heap)
      reads this
    {
      Heap(pages, mem, freelist, free, owner, trees)
    }

    ghost predicate Valid()
      reads this
    {
      HeapOk(View())
    }

    /** The pages of the heap are those that free_page accepts. */
    ghost predicate Managed() {
      Manages(pages, end)
    }

    /** Memory as the boot code leaves it: nothing is free yet. */
    constructor (end: Word, mem: Mem)
      requires KERNBASE <= end <= PHYSTOP && mem.Keys == AllPages(end) && forall a :: a in mem ==> |mem[a]| == 512
      ensures Valid() && Managed() && this.end == end && this.mem == mem && free == [] && trees == map[] &&
        pages == AllPages(end)
      ensures forall a :: a in owner ==> owner[a] == Data
    {
      this.end, this.pages, this.mem, freelist := end, AllPages(end), mem, 0;
      free, trees := [], map[];
      owner := map a | a in mem :: Data;
      new;
      forall a | true ensures a in pages <==> Manageable(a, end) { AllManageable(end, a); }
      forall a | a in mem ensures PageIn(mem, a) { PageAddrs(a); AllManageable(end, a); }
    }

    // ----- kernel/mm/kalloc.c

    /**
     free_page.  It does not notice that the page is free already or still in use as a table:
     it does the same then, but memory is valid afterwards only if the page was data.
    */
    method FreePage(page: Word) returns (r: Outcome)
      requires Valid() && Managed()
      modifies this
      ensures r.Done? <==> Manageable(page, end)
      ensures r.Panicked? ==> View() == old(View())
      ensures r.Done? ==> page in old(owner) && View() == Freed(old(View()), page)
      ensures r.Done? ==> (Valid() <==> old(owner)[page] == Data)
    {
      if page % PGSIZE != 0 || page < end || page >= PHYSTOP {
        return Panicked;
      }
      assert Manageable(page, end);
      FreedIff(View(), page);
      ListHead(View());
      JunkAndLink(mem, page, freelist);
      mem := mem[page := Filled(1)];
      mem := Poke(mem, page, 0, freelist);
      freelist := page;
      free, owner := [page] + free, owner[page := Owner.Free];
      r := Done;
    }

    /** alloc_page */
    method AllocPage() returns (r: Outcome, page: int)
      requires Valid()
      modifies this
      ensures r.Panicked? <==> old(free) == []
      ensures r.Panicked? ==> View() == old(View())
      ensures r.Done? ==> page == old(free)[0] && View() == Allocated(old(View())) && Valid()
    {
      page := freelist;
      ListHead(View());
      if page != 0 {
        AllocatedOk(View());
        freelist := mem[page][0];
      }
      if page != 0 {
        mem := mem[page := Filled(5)];
        free, owner := free[1..], owner[page := Data];
      }
      if page == 0 {
        return Panicked, page;
      }
      r := Done;
    }

    /** pmm_init: freerange(end, PHYSTOP) */
    method PmmInit() returns (r: Outcome)
      requires Valid() && Managed() && free == [] && forall a :: a in owner ==> owner[a] == Data
      modifies this
      ensures r.Done? && Valid() && trees == old(trees) && owner.Keys == old(owner).Keys
      ensures FreeBelow(owner, PHYSTOP) && DescendsFrom(free, PHYSTOP)
      ensures |free| == (PHYSTOP - PgRoundUp(end)) / PGSIZE
    {
      ghost var h := View();
      InitRange(h, end);
      r := FreeRange(end, PHYSTOP);
      InitFreed(h, View(), end);
    }

    /** One turn of the loop of freerange; h0 is the memory it started with. */
    method FreeNext(p: Word, first: Word, ghost h0: Heap, ghost n: nat) returns (r: Outcome)
      requires Valid() && Managed() && Aligned(first) && RangeFreed(h0, View(), first, n)
      requires p == first + n * PGSIZE && (p in owner ==> owner[p] == Data)
      modifies this
      ensures r.Done? <==> Manageable(p, end)
      ensures r.Done? ==> Valid() && RangeFreed(h0, View(), first, n + 1)
    {
      ghost var g := View();
      r := FreePage(p);
      if r.Done? { RangeNext(h0, g, end, first, p, n); }
    }

    /**
     freerange; it panics if and only if it comes to a page that free_page refuses.  That no page
     of the range is free already is up to its callers.
    */
    method FreeRange(start: Word, stop: Word) returns (r: Outcome)
      requires Valid() && Managed()
      requires forall a :: InRange(PgRoundUp(start), stop, a) && a in owner ==> owner[a] == Data
      modifies this
      ensures r.Done? <==> Accepted(PgRoundUp(start), stop, end)
      ensures r.Done? ==>
        Valid() && RangeFreed(old(View()), View(), PgRoundUp(start), PagesIn(PgRoundUp(start), stop))
    {
      RoundUpAligned(start);
      r := FreePages(PgRoundUp(start), stop);
    }

    /** The loop of freerange. */
    method FreePages(first: Word, stop: Word) returns (r: Outcome)
      requires Valid() && Managed() && Aligned(first)
      requires forall a :: InRange(first, stop, a) && a in owner ==> owner[a] == Data
      modifies this
      ensures r.Done? <==> Accepted(first, stop, end)
      ensures r.Done? ==> Valid() && RangeFreed(old(View()), View(), first, PagesIn(first, stop))
    {
      var p: Word := first;
      ghost var h, n := View(), 0;
      while MorePages(p, stop)
        invariant Valid() && RangeFreed(h, View(), first, n) && RangeTurn(first, stop, end, p, n)
        decreases TWO64 - p
      {
        RangePage(h, View(), first, stop, end, p, n);
        r := FreeNext(p, first, h, n);
        if r.Panicked? {
          NotAccepted(first, stop, p, end);
          return;
        }
        AcceptedNext(first, stop, p, end, n);
        p, n := p + PGSIZE, n + 1;
      }
      RangeEnds(first, stop, p, end, n);
      r := Done;
    }

    // ----- kernel/mm/vm.c

    /** create_pagetable */
    method CreatePagetable() returns (r: Outcome, pt: int)
      requires Valid()
      modifies this
      ensures r.Panicked? <==> old(free) == []
      ensures r.Done? ==> pt == old(free)[0] && View() == Created(old(View())) && Valid()
    {
      ghost var h := View();
      r, pt := AllocPage();
      if r.Panicked? {
        return;
      }
      mem := mem[pt := Zeros()];
      owner, trees := owner[pt := Table(pt, ROOT)], trees[pt := map[ROOT := pt]];
      assert View() == Created(h);
      CreatedOk(h);
    }

    /** walk_lookup: the address of the last-level entry for va, null if there is no table for it */
    method WalkLookup(pt: int, va: Word) returns (pte: Option<PtePtr>)
      requires Valid() && pt in trees
      ensures pte.Some? <==> PathKey(Vpn(va), 0) in trees[pt]
      ensures pte.Some? ==> pte.value == PtePtr(trees[pt][PathKey(Vpn(va), 0)], Vpn(va) % 512)
    {
      var a, level := pt, 2;
      RootOnPath(View(), pt, Vpn(va));
      while level > 0
        invariant 0 <= level <= 2 && PathKey(Vpn(va), level) in trees[pt] && a == trees[pt][PathKey(Vpn(va), level)]
      {
        PathPage(View(), pt, Vpn(va), level);
        MaskIsIndex(va, level);
        var entry := mem[a][VpnMask(va, level)];
        if !Riscv.Valid(entry) {
          PathsUp(View(), pt, Vpn(va), level - 1);
          return None;
        }
        a, level := Pte2Pa(entry), level - 1;
      }
      MaskIsIndex(va, 0);
      pte := Some(PtePtr(a, VpnMask(va, 0)));
    }

    /** walk_create hangs a fresh table below entry i of the table at a. */
    method Hang(pt: int, ghost v: int, ghost level: nat, a: int, i: nat) returns (r: Outcome)
      requires Rooted(View(), pt) && 0 <= v < VPNS && 0 < level <= 2
      requires PathKey(v, level) in trees[pt] && PathKey(v, level - 1) !in trees[pt]
      requires a == trees[pt][PathKey(v, level)] && i == Index(v, level)
      modifies this
      ensures r.Panicked? <==> old(free) == []
      ensures r.Panicked? ==> View() == old(View())
      ensures r.Done? ==> CanGrow(old(View()), pt, v, level) && View() == Grow(old(View()), pt, v, level)
    {
      ghost var h := View();
      var page;
      PathPage(h, pt, v, level);
      r, page := AllocPage();
      if r.Done? {
        GrowReady(h, pt, v, level);
        mem := mem[page := Zeros()];
        mem := Poke(mem, a, i, PointerPte(page));
        owner := owner[page := Table(pt, PathKey(v, level - 1))];
        trees := trees[pt := trees[pt][PathKey(v, level - 1) := page]];
      }
    }

    /** One turn of the loop of walk_create: from the table at a to the one below it. */
    method Descend(pt: int, va: Word, level: nat, a: int) returns (r: Outcome, b: int)
      requires Rooted(View(), pt) && 0 < level <= 2
      requires PathKey(Vpn(va), level) in trees[pt] && a == trees[pt][PathKey(Vpn(va), level)]
      modifies this
      ensures r.Panicked? ==> Walked(old(View()), pt, Vpn(va), level) == (View(), false)
      ensures r.Done? ==>
        && Rooted(View(), pt) && PathKey(Vpn(va), level - 1) in trees[pt] && b == trees[pt][PathKey(Vpn(va), level - 1)]
        && Walked(View(), pt, Vpn(va), level - 1) == Walked(old(View()), pt, Vpn(va), level)
    {
      PathPage(View(), pt, Vpn(va), level);
      MaskIsIndex(va, level);
      var i := VpnMask(va, level);
      r, b := Done, 0;
      if !Riscv.Valid(mem[a][i]) {
        GrowIsWalked(View(), pt, Vpn(va), level);
        r := Hang(pt, Vpn(va), level, a, i);
      }
      if r.Done? {
        PathPage(View(), pt, Vpn(va), level);
        b := Pte2Pa(mem[a][i]);
      }
    }

    /** walk_create */
    method WalkCreate(pt: int, va: Word) returns (r: Outcome, pte: PtePtr)
      requires Rooted(View(), pt)
      modifies this
      ensures PathKey(Vpn(va), 2) in old(trees)[pt]
      ensures (View(), r.Done?) == Walked(old(View()), pt, Vpn(va), 2)
      ensures r.Done? ==> Rooted(View(), pt) && PathKey(Vpn(va), 0) in trees[pt] &&
                          pte == PtePtr(trees[pt][PathKey(Vpn(va), 0)], Vpn(va) % 512)
    {
      var a, level := pt, 2;
      RootOnPath(View(), pt, Vpn(va));
      while level > 0
        invariant 0 <= level <= 2 && Rooted(View(), pt)
        invariant PathKey(Vpn(va), level) in trees[pt] && a == trees[pt][PathKey(Vpn(va), level)]
        invariant Walked(View(), pt, Vpn(va), level) == Walked(old(View()), pt, Vpn(va), 2)
      {
        r, a := Descend(pt, va, level, a);
        if r.Panicked? {
          return r, PtePtr(0, 0);
        }
        level := level - 1;
      }
      MaskIsIndex(va, 0);
      r, pte := Done, PtePtr(a, VpnMask(va, 0));
    }

    /** *pte = w */
    method StoreEntry(pt: int, ghost v: int, pte: PtePtr, w: Word)
      requires Rooted(View(), pt) && 0 <= v < VPNS && PathKey(v, 0) in trees[pt]
      requires pte == PtePtr(trees[pt][PathKey(v, 0)], v % 512)
      modifies this
      ensures View() == WriteLeaf(old(View()), pt, v, w)
    {
      PathPage(View(), pt, v, 0);
      mem := Poke(mem, pte.page, pte.index, w);
    }

    /** map_page, with any int as permissions */
    method MapPage(pt: int, va: Word, pa: Word, perm: int) returns (r: Outcome, res: int)
      requires Rooted(View(), pt)
      modifies this
      ensures !Aligned(va) || !Aligned(pa) ==> r.Done? && res == -1 && View() == old(View())
      ensures Aligned(va) && Aligned(pa) ==>
        && (r.Done? <==> CanMap(old(View()), pt, Vpn(va)))
        && (r.Done? ==> res == 0 && MapsOne(old(View()), View(), pt, Vpn(va), LeafPte(pa, perm)))
    {
      if va % PGSIZE != 0 || pa % PGSIZE != 0 {
        return Done, -1;
      }
      ghost var h, v := View(), Vpn(va);
      RootOnPath(h, pt, v);
      WalkedReaches(h, pt, v);
      var pte;
      r, pte := WalkCreate(pt, va);
      if r.Panicked? {
        return r, 0;
      }
      ghost var g := View();
      PathPage(g, pt, v, 0);
      if Riscv.Valid(mem[pte.page][pte.index]) {
        return Panicked, 0;
      }
      LeafValid(pa, perm);
      StoreEntry(pt, v, pte, LeafPte(pa, perm));
      MapsOneAfterWalk(h, g, pt, v, LeafPte(pa, perm));
      res := 0;
    }

    /** unmap_page; the page itself is not freed */
    method UnmapPage(pt: int, va: Word) returns (r: Outcome)
      requires Rooted(View(), pt)
      modifies this
      ensures r.Panicked? <==> Vpn(va) !in MapOf(old(View()), pt)
      ensures r.Panicked? ==> View() == old(View())
      ensures r.Done? ==>
        && Rooted(View(), pt) && OthersSame(old(View()), View(), pt)
        && MapOf(View(), pt) == MapOf(old(View()), pt) - {Vpn(va)}
        && PathKey(Vpn(va), 0) in old(trees)[pt] && View() == WriteLeaf(old(View()), pt, Vpn(va), 0)
    {
      ghost var h, v := View(), Vpn(va);
      NoTableNoEntry(h, pt, v);
      var pte := WalkLookup(pt, va);
      if pte == None {
        return Panicked;
      }
      PathPage(h, pt, v, 0);
      if !Riscv.Valid(mem[pte.value.page][pte.value.index]) {
        return Panicked;
      }
      StoreEntry(pt, v, pte.value, 0);
      ZeroInvalid();
      WriteLeafOk(h, pt, v, 0);
      r := Done;
    }
  }

  /** memset with 1 and then r->next = freelist. */
  lemma JunkAndLink(mem: Mem, page: int, next: Word)
    ensures var m := mem[page := Filled(1)];
      |m[page]| == 512 && Poke(m, page, 0, next) == mem[page := Linked(next)]
  {
    assert Filled(1)[0 := next] == Linked(next);
  }

  /** The checks of free_page. */
  predicate Manageable(a: int, end: Word) {
    Aligned(a) && end <= a < PHYSTOP
  }

  ghost predicate Manages(pages: set<int>, end: Word) {
    && KERNBASE <= end <= PHYSTOP
    && forall a {:trigger Manageable(a, end)} :: Manageable(a, end) <==> a in pages
  }

  /**
   The whole pages from first to stop.  The last page of the 64-bit address space is one of them if
   it comes first, since p + PGSIZE is 0 there.
  */
  predicate InRange(first: int, stop: Word, a: int) {
    Aligned(a) && first <= a && (a + PGSIZE <= stop || a == first == TWO64 - PGSIZE)
  }

  lemma RoundUpAligned(a: Word)
    ensures Aligned(PgRoundUp(a))
  {
  }

  /** free_page accepts the pages of the range below p. */
  ghost predicate AcceptedBelow(first: int, stop: Word, p: int, end: Word) {
    forall a :: InRange(first, stop, a) && a < p ==> Manageable(a, end)
  }

  ghost predicate Accepted(first: int, stop: Word, end: Word) {
    forall a :: InRange(first, stop, a) ==> Manageable(a, end)
  }

  function PagesIn(first: int, stop: Word): (n: nat) {
    if first <= stop then (stop - first) / PGSIZE else 0
  }

  /** The n pages from first on, the last one in front. */
  function Descending(first: int, n: nat): (pages: seq<int>)
    ensures |pages| == n
  {
    if n == 0 then [] else [first + (n - 1) * PGSIZE] + Descending(first, n - 1)
  }

  /**
   From h0 to h the n pages from first on have been freed, one after the other, and nothing else has
   changed hands.
  */
  ghost predicate RangeFreed(h0: Heap, h: Heap, first: int, n: nat) {
    && h.pages == h0.pages && h.trees == h0.trees && h.owner.Keys == h0.owner.Keys
    && (forall a :: a in h0.owner ==> h.owner[a] == if first <= a < first + n * PGSIZE then Owner.Free else h0.owner[a])
    && h.free == Descending(first, n) + h0.free
  }

  /** p + PGSIZE <= pa_end, where the sum may wrap. */
  predicate MorePages(p: Word, stop: Word) {
    (p + PGSIZE) % TWO64 <= stop
  }

  /** The loop has come to page p, the n-th of the range, and free_page has accepted the ones before. */
  ghost predicate RangeTurn(first: int, stop: Word, end: Word, p: int, n: nat) {
    && Aligned(first) && 0 <= first && p == first + n * PGSIZE && n <= PagesIn(first, stop)
    && AcceptedBelow(first, stop, p, end)
  }

  /** The next page of the range is not free yet. */
  lemma RangePage(h0: Heap, h: Heap, first: int, stop: Word, end: Word, p: Word, n: nat)
    requires RangeFreed(h0, h, first, n) && RangeTurn(first, stop, end, p, n) && MorePages(p, stop)
    requires forall a :: InRange(first, stop, a) && a in h0.owner ==> h0.owner[a] == Data
    ensures InRange(first, stop, p) && p == first + n * PGSIZE && (p in h.owner ==> h.owner[p] == Data)
  {
    TurnInRange(first, stop, end, p, n);
  }

  /** The loop condition is right even where the sum wraps: no page just before the last of all is accepted. */
  lemma TurnInRange(first: int, stop: Word, end: Word, p: Word, n: nat)
    requires RangeTurn(first, stop, end, p, n) && MorePages(p, stop)
    ensures InRange(first, stop, p)
  {
    if n > 0 {
      assert InRange(first, stop, p - PGSIZE);
    }
  }

  lemma RangeNext(h0: Heap, h: Heap, end: Word, first: int, p: int, n: nat)
    requires PagesOk(h) && Manages(h.pages, end) && RangeFreed(h0, h, first, n) && Aligned(first)
    requires p == first + n * PGSIZE && p in h.owner
    ensures RangeFreed(h0, Freed(h, p), first, n + 1)
  {
    forall a | a in h0.owner
      ensures Freed(h, p).owner[a] == if first <= a < first + (n + 1) * PGSIZE then Owner.Free else h0.owner[a]
    {
      assert Manageable(a, end) && Manageable(p, end);
    }
  }

  /** When the loop ends, all of the range lies below p. */
  lemma RangeEnds(first: int, stop: Word, p: Word, end: Word, n: nat)
    requires RangeTurn(first, stop, end, p, n) && !MorePages(p, stop)
    ensures n == PagesIn(first, stop) && Accepted(first, stop, end)
  {
  }

  lemma NotAccepted(first: int, stop: Word, p: int, end: Word)
    requires InRange(first, stop, p) && !Manageable(p, end)
    ensures !Accepted(first, stop, end)
  {
  }

  lemma AcceptedNext(first: int, stop: Word, p: int, end: Word, n: nat)
    requires RangeTurn(first, stop, end, p, n) && InRange(first, stop, p) && Manageable(p, end)
    ensures RangeTurn(first, stop, end, p + PGSIZE, n + 1) && p + PGSIZE < TWO64
  {
  }

  lemma {:induction false} DescendingAt(first: int, n: nat, i: nat)
    requires i < n
    ensures Descending(first, n)[i] == first + (n - 1 - i) * PGSIZE
  {
    if i > 0 { DescendingAt(first, n - 1, i - 1); }
  }

  /** pmm_init's range: free_page accepts every page of it, and that is every page there is. */
  lemma InitRange(h: Heap, end: Word)
    requires PagesOk(h) && Manages(h.pages, end)
    ensures forall a :: InRange(PgRoundUp(end), PHYSTOP, a) <==> Manageable(a, end)
    ensures PgRoundUp(end) + PagesIn(PgRoundUp(end), PHYSTOP) * PGSIZE == PHYSTOP
  {
  }

  lemma InitFreed(h0: Heap, h: Heap, end: Word)
    requires PagesOk(h) && Manages(h.pages, end) && h0.free == [] && forall a :: a in h0.owner ==> h0.owner[a] == Data
    requires RangeFreed(h0, h, PgRoundUp(end), PagesIn(PgRoundUp(end), PHYSTOP))
    ensures FreeBelow(h.owner, PHYSTOP) && DescendsFrom(h.free, PHYSTOP) && |h.free| == PagesIn(PgRoundUp(end), PHYSTOP)
  {
    InitRange(h, end);
    forall a | a in h.owner ensures Aligned(a) && h.owner[a] == if a < PHYSTOP then Owner.Free else Data {
      assert Manageable(a, end) && InRange(PgRoundUp(end), PHYSTOP, a);
    }
    forall i | 0 <= i < |h.free| ensures h.free[i] == PHYSTOP - (i + 1) * PGSIZE {
      DescendingAt(PgRoundUp(end), PagesIn(PgRoundUp(end), PHYSTOP), i);
    }
  }

  /** Exactly the pages below p are free, the others are not in use as tables. */
  predicate FreeBelow(owner: map<int, Owner>, p: int) {
    forall a :: a in owner ==> Aligned(a) && owner[a] == if a < p then Owner.Free else Data
  }

  /** The list goes down page by page, and starts just below p. */
  predicate DescendsFrom(free: seq<int>, p: int) {
    forall i :: 0 <= i < |free| ==> free[i] == p - (i + 1) * PGSIZE
  }

  /** The checks of free_page admit exactly the pages the allocator manages. */
  lemma AllManageable(end: Word, a: int)
    requires KERNBASE <= end <= PHYSTOP
    ensures a in AllPages(end) <==> Manageable(a, end)
  {
  }

  lemma ListHead(h: Heap)
    requires PagesOk(h) && FreeOk(h)
    ensures 0 <= h.freelist < TWO64 && (h.freelist == 0 <==> h.free == [])
    ensures h.free != [] ==> h.freelist == h.free[0] && h.freelist in h.mem && |h.mem[h.freelist]| == 512
  {
    if h.free != [] {
      assert h.free[0] in h.free;
      assert PageIn(h.mem, h.free[0]);
    }
  }

  lemma GrowIsWalked(h: Heap, pt: int, v: int, level: nat)
    requires Rooted(h, pt) && 0 <= v < VPNS && 0 < level <= 2
    requires PathKey(v, level) in h.trees[pt] && PathKey(v, level - 1) !in h.trees[pt]
    ensures h.free == [] ==> Walked(h, pt, v, level) == (h, false)
    ensures h.free != [] ==>
      var g := Grow(h, pt, v, level);
      Rooted(g, pt) && PathKey(v, level) in g.trees[pt] && PathKey(v, level - 1) in g.trees[pt] &&
      g.trees[pt][PathKey(v, level)] == h.trees[pt][PathKey(v, level)] &&
      Walked(g, pt, v, level) == Walked(h, pt, v, level)
  {
    if h.free != [] { GrowOk(h, pt, v, level); }
  }
}
