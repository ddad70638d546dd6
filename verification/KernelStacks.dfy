/** procinit (kernel/proc.c): the kernel stacks of the process slots. */
module KernelStacks {
  import opened Prelude
  import opened Riscv
  import opened PageTree
  import opened Heap
  import opened AddressSpace
  import opened PageLists
  import opened PhysMem
  import opened KernelMap
  import opened KernelSpace

  // ----- what happens to data pages

  ghost function DataPages(h: Heap): (r: set<int>) {
    set a | a in h.owner && h.owner[a] == Data
  }

  /** Only the tree at root has changed, and the pages `more` have been handed out as data. */
  ghost predicate Grew(h0: Heap, h: Heap, root: int, more: set<int>) {
    && h.pages == h0.pages
    && (forall r :: r in h0.trees && r != root ==>
          r in h.trees && h.trees[r] == h0.trees[r] && Mapping(h.mem, h.trees[r]) == Mapping(h0.mem, h0.trees[r]))
    && (forall r :: r in h.trees && r != root ==> r in h0.trees)
    && DataPages(h) == DataPages(h0) + more
    && (forall a :: a in DataPages(h0) ==> a in h0.mem && a in h.mem && h.mem[a] == h0.mem[a])
  }

  lemma OthersGrew(h0: Heap, h: Heap, root: int)
    requires OthersSame(h0, h, root)
    ensures Grew(h0, h, root, {})
  {
    forall a ensures a in DataPages(h) <==> a in DataPages(h0) { }
    assert DataPages(h0) + {} == DataPages(h0);
  }

  lemma GrewTrans(h0: Heap, g: Heap, h: Heap, root: int, f: set<int>, f': set<int>)
    requires Grew(h0, g, root, f) && Grew(g, h, root, f')
    ensures Grew(h0, h, root, f + f')
  {
  }

  lemma AllocatedGrew(h: Heap, root: int)
    requires Rooted(h, root) && h.free != []
    ensures var g := Allocated(h);
      && Rooted(g, root) && g.trees == h.trees && MapOf(g, root) == MapOf(h, root) && g.free == h.free[1..]
      && Grew(h, g, root, {h.free[0]}) && h.free[0] in h.pages && h.free[0] !in DataPages(h)
  {
    AllocatedOk(h);
    assert h.free[0] in h.free && PageIn(h.mem, h.free[0]);
  }

  // ----- one page through kvmmap

  lemma OnePage(h: Heap, g: Heap, root: int, v: PageNo, w: Word)
    requires root in h.trees
    ensures CanMapList(h, root, [v], 1) <==> CanMap(h, root, v)
    ensures MapsList(h, g, root, [v], [w], 1) ==> MapsOne(h, g, root, v, w)
  {
    var keys := h.trees[root].Keys;
    assert ListKeys([v], 1) == PathBelow(v, 2);
    assert Fresh(MapOf(h, root), [v], 1) <==> FreshAt(MapOf(h, root), [v], 0);
    assert Entered(MapOf(h, root), [v], [w], 1) == MapOf(h, root)[v := w];
  }

  method MapStack(ram: Ram, pt: int, va: Word, pa: Word, ghost v: PageNo) returns (r: Outcome)
    requires Rooted(ram.View(), pt) && va == v * PGSIZE && Aligned(pa)
    modifies ram
    ensures r.Done? <==> CanMap(old(ram.View()), pt, v)
    ensures r.Done? ==> MapsOne(old(ram.View()), ram.View(), pt, v, LeafPte(pa, RW))
  {
    ghost var h := ram.View();
    CountOf(va, PGSIZE, v, 1);
    assert RangeVpns(v, 1) == [v] && RangePtes(pa, RW, 1) == [LeafPte(pa, RW)];
    r := KvmMap(ram, pt, va, pa, PGSIZE, RW);
    OnePage(h, ram.View(), pt, v, LeafPte(pa, RW));
  }

  // ----- the stacks

  function StackVpn(p: nat): (r: PageNo)
    requires p < NPROC
  {
    0x3FF_FFFD - 2 * p
  }

  lemma StackAddress(p: nat)
    requires p < NPROC
    ensures KStack(p) == StackVpn(p) * PGSIZE
  {
  }

  function StackKeys(): (r: set<Key>) {
    {ROOT, Key(1, 255), Key(0, 0x1_FFFF)}
  }

  lemma StackPath(p: nat)
    requires p < NPROC
    ensures PathBelow(StackVpn(p), 2) == StackKeys()
  {
    OnePathKeys(StackVpn(p));
    assert Span(1, 255, 255) == {Key(1, 255)} && Span(0, 0x1_FFFF, 0x1_FFFF) == {Key(0, 0x1_FFFF)};
  }

  /** m with the stacks of the first slots mapped to the given pages. */
  function WithStacks(m: map<int, Word>, stacks: seq<Word>): (r: map<int, Word>)
    requires |stacks| <= NPROC
  {
    if stacks == [] then m
    else WithStacks(m, stacks[..|stacks| - 1])[StackVpn(|stacks| - 1) := LeafPte(stacks[|stacks| - 1], RW)]
  }

  lemma {:induction false} StacksMapped(m: map<int, Word>, stacks: seq<Word>, v: int)
    requires |stacks| <= NPROC
    ensures v in WithStacks(m, stacks) <==> v in m || exists p :: 0 <= p < |stacks| && v == StackVpn(p)
    ensures forall p :: 0 <= p < |stacks| && v == StackVpn(p) ==> WithStacks(m, stacks)[v] == LeafPte(stacks[p], RW)
    ensures v in m && (forall p :: 0 <= p < |stacks| ==> v != StackVpn(p)) ==> WithStacks(m, stacks)[v] == m[v]
  {
    if stacks != [] {
      var n := |stacks| - 1;
      StacksMapped(m, stacks[..n], v);
      forall p | 0 <= p < n ensures StackVpn(p) != StackVpn(n) && stacks[..n][p] == stacks[p] { }
    }
  }

  /** Every stack lies between two pages that are not mapped. */
  lemma GuardPages(etext: Word, stacks: seq<Word>, p: nat)
    requires TextEnds(etext) && |stacks| == NPROC && p < NPROC
    ensures StackVpn(p) in WithStacks(KernelMapping(etext), stacks)
    ensures StackVpn(p) - 1 !in WithStacks(KernelMapping(etext), stacks)
    ensures StackVpn(p) + 1 !in WithStacks(KernelMapping(etext), stacks)
  {
    var m := KernelMapping(etext);
    StacksMapped(m, stacks, StackVpn(p));
    StacksMapped(m, stacks, StackVpn(p) - 1);
    StacksMapped(m, stacks, StackVpn(p) + 1);
  }

  // ----- procinit

  /** The pages taken from the free list for n stacks: one each, and two tables with the first. */
  function StackCost(n: nat): (r: nat) {
    if n == 0 then 0 else n + 2
  }

  /** After some turns of the loop of procinit. */
  ghost predicate StackStage(h0: Heap, h: Heap, root: int, etext: Word, stacks: seq<Word>)
    requires TextEnds(etext)
  {
    Rooted(h, root) && StackTree(h, root, etext, stacks) && FreeLeft(h0.free, h.free, |stacks|) &&
        NewPages(h0, h, root, stacks)
  }

  ghost predicate StackTree(h: Heap, root: int, etext: Word, stacks: seq<Word>)
    requires TextEnds(etext)
  {
    && root in h.trees && |stacks| <= NPROC
    && MapOf(h, root) == WithStacks(KernelMapping(etext), stacks)
    && h.trees[root].Keys == KernelKeys() + (if stacks == [] then {} else StackKeys())
  }

  predicate FreeLeft(free0: seq<int>, free: seq<int>, n: nat) {
    StackCost(n) <= |free0| && free == free0[StackCost(n)..]
  }

  /** The stacks lie in different pages that were free before. */
  ghost predicate NewPages(h0: Heap, h: Heap, root: int, stacks: seq<Word>) {
    && Distinct(stacks) && (forall a :: a in stacks ==> a !in DataPages(h0))
    && Grew(h0, h, root, set a | a in stacks)
  }

  lemma StackTables(n: nat)
    ensures var keys := KernelKeys() + (if n == 0 then {} else StackKeys());
      |StackKeys() - keys| == (if n == 0 then 2 else 0) && keys + StackKeys() == KernelKeys() + StackKeys()
  {
    if n == 0 {
      assert StackKeys() - KernelKeys() == {Key(1, 255), Key(0, 0x1_FFFF)};
    } else {
      assert StackKeys() - (KernelKeys() + StackKeys()) == {};
    }
  }

  lemma StackIsNew(etext: Word, stacks: seq<Word>)
    requires TextEnds(etext) && |stacks| < NPROC
    ensures StackVpn(|stacks|) !in WithStacks(KernelMapping(etext), stacks)
  {
    StacksMapped(KernelMapping(etext), stacks, StackVpn(|stacks|));
  }

  /** Whether there is room for one more stack once its page g has been allocated. */
  lemma StackRoom(g: Heap, root: int, etext: Word, stacks: seq<Word>)
    requires TextEnds(etext) && |stacks| < NPROC && StackTree(g, root, etext, stacks)
    ensures CanMap(g, root, StackVpn(|stacks|)) <==> |g.free| >= (if stacks == [] then 2 else 0)
  {
    StackIsNew(etext, stacks);
    StackPath(|stacks|);
    StackTables(|stacks|);
  }

  lemma NextNewPages(h0: Heap, h: Heap, g: Heap, h': Heap, root: int, stacks: seq<Word>, pa: Word)
    requires NewPages(h0, h, root, stacks) && Grew(h, g, root, {pa}) && pa !in DataPages(h) && OthersSame(g, h', root)
    ensures NewPages(h0, h', root, stacks + [pa])
  {
    DistinctNext(stacks, pa);
    OthersGrew(g, h', root);
    GrewTrans(h0, h, g, root, set a | a in stacks, {pa});
    GrewTrans(h0, g, h', root, (set a | a in stacks) + {pa}, {});
    assert (set a | a in stacks) + {pa} + {} == set a | a in stacks + [pa];
  }

  lemma NextFree(free0: seq<int>, free: seq<int>, free': seq<int>, n: nat, t: nat)
    requires FreeLeft(free0, free, n) && free != []
    requires t == (if n == 0 then 2 else 0) && t <= |free| - 1 && free' == free[1..][t..]
    ensures FreeLeft(free0, free', n + 1)
  {
    DropDrop(free, 1, t);
    DropDrop(free0, StackCost(n), 1 + t);
  }

  /** The tree after one more stack. */
  lemma NextStackTree(g: Heap, h': Heap, root: int, etext: Word, stacks: seq<Word>, pa: Word)
    requires TextEnds(etext) && |stacks| < NPROC && StackTree(g, root, etext, stacks) && root in h'.trees
    requires MapOf(h', root) == MapOf(g, root)[StackVpn(|stacks|) := LeafPte(pa, RW)]
    requires CostOk(g.trees[root].Keys, g.free, StackVpn(|stacks|), 2, h'.trees[root].Keys, h'.free, true)
    ensures StackTree(h', root, etext, stacks + [pa])
    ensures var t := if stacks == [] then 2 else 0; t <= |g.free| && h'.free == g.free[t..]
  {
    StackPath(|stacks|);
    StackTables(|stacks|);
    assert (stacks + [pa])[..|stacks|] == stacks;
  }

  lemma DistinctNext(stacks: seq<Word>, pa: Word)
    requires Distinct(stacks) && pa !in stacks
    ensures Distinct(stacks + [pa])
  {
  }

  lemma NextStack(h0: Heap, h: Heap, h': Heap, root: int, etext: Word, stacks: seq<Word>, pa: Word)
    requires TextEnds(etext) && StackStage(h0, h, root, etext, stacks) && |stacks| < NPROC && h.free != [] &&
      pa == h.free[0]
    requires Rooted(Allocated(h), root)
    requires MapsOne(Allocated(h), h', root, StackVpn(|stacks|), LeafPte(pa, RW))
    ensures StackStage(h0, h', root, etext, stacks + [pa])
  {
    AllocatedGrew(h, root);
    NextStackTree(Allocated(h), h', root, etext, stacks, pa);
    NextNewPages(h0, h, Allocated(h), h', root, stacks, pa);
    NextFree(h0.free, h.free, h'.free, |stacks|, if stacks == [] then 2 else 0);
  }

  /** p->kstack of the first slots. */
  predicate KStacks(kstack: seq<Word>) {
    forall p :: 0 <= p < |kstack| ==> kstack[p] == KStack(p)
  }

  lemma KStacksNext(kstack: seq<Word>, va: Word)
    requires KStacks(kstack) && va == KStack(|kstack|)
    ensures KStacks(kstack + [va])
  {
  }

  /** A page for the stack of slot p, and its mapping. */
  method AllocStack(ram: Ram, pt: int, etext: Word, p: nat, ghost h0: Heap, ghost stacks: seq<Word>)
    returns (r: Outcome, ghost pa: Word, va: Word)
    requires TextEnds(etext) && p == |stacks| < NPROC && StackStage(h0, ram.View(), pt, etext, stacks)
    modifies ram
    ensures r.Panicked? ==> |h0.free| < StackCost(NPROC)
    ensures va == KStack(p)
    ensures r.Done? ==> StackStage(h0, ram.View(), pt, etext, stacks + [pa])
  {
    ghost var h := ram.View();
    StackAddress(p);
    va, pa := KStack(p), 0;
    var page;
    r, page := ram.AllocPage();
    if r.Panicked? {
      return;
    }
    AllocatedGrew(h, pt);
    StackRoom(ram.View(), pt, etext, stacks);
    PageOfHeap(h);
    pa := page;
    r := MapStack(ram, pt, va, page, StackVpn(p));
    if r.Done? { NextStack(h0, h, ram.View(), pt, etext, stacks, pa); }
  }

  /** One turn of the loop of procinit. */
  method AddStack(ram: Ram, pt: int, etext: Word, kstack: seq<Word>, ghost h0: Heap, ghost stacks: seq<Word>)
    returns (r: Outcome, kstack': seq<Word>, ghost stacks': seq<Word>)
    requires TextEnds(etext) && |kstack| == |stacks| < NPROC && KStacks(kstack) &&
      StackStage(h0, ram.View(), pt, etext, stacks)
    modifies ram
    ensures r.Panicked? ==> |h0.free| < StackCost(NPROC)
    ensures r.Done? ==> StackStage(h0, ram.View(), pt, etext, stacks')
    ensures r.Done? ==> |kstack'| == |stacks'| == |stacks| + 1 && KStacks(kstack')
  {
    ghost var pa;
    var va;
    r, pa, va := AllocStack(ram, pt, etext, |kstack|, h0, stacks);
    KStacksNext(kstack, va);
    kstack', stacks' := kstack + [va], stacks + [pa];
  }

  lemma PageOfHeap(h: Heap)
    requires HeapOk(h) && h.free != []
    ensures 0 <= h.free[0] < TWO64 && Aligned(h.free[0])
  {
    assert h.free[0] in h.free && PageIn(h.mem, h.free[0]);
    PageAddrs(h.free[0]);
  }

  lemma StacksStart(h: Heap, root: int, etext: Word)
    requires TextEnds(etext) && Rooted(h, root) && StackTree(h, root, etext, [])
    ensures StackStage(h, h, root, etext, [])
  {
    var none: seq<Word> := [];
    assert (set a | a in none) == {};
    assert DataPages(h) + {} == DataPages(h);
  }

  /** procinit, after kvminit; it runs out of memory exactly when fewer than 66 pages are free. */
  method ProcInit(ram: Ram, pt: int, etext: Word) returns (r: Outcome, kstack: seq<Word>, ghost stacks: seq<Word>)
    requires TextEnds(etext) && Rooted(ram.View(), pt) && StackTree(ram.View(), pt, etext, [])
    modifies ram
    ensures r.Done? <==> |old(ram.free)| >= StackCost(NPROC)
    ensures r.Done? ==> StackStage(old(ram.View()), ram.View(), pt, etext, stacks) && |stacks| == |kstack| == NPROC
    ensures r.Done? ==> KStacks(kstack)
  {
    ghost var h0 := ram.View();
    StacksStart(h0, pt, etext);
    stacks, kstack, r := [], [], Done;
    while |kstack| < NPROC
      invariant |stacks| == |kstack| <= NPROC && KStacks(kstack) && StackStage(h0, ram.View(), pt, etext, stacks)
      invariant r.Done?
    {
      r, kstack, stacks := AddStack(ram, pt, etext, kstack, h0, stacks);
      if r.Panicked? {
        return;
      }
    }
  }

  // ----- the three of them, as main calls them

  lemma AllFree(h: Heap)
    requires HeapOk(h) && h.trees == map[] && forall a :: a in h.owner ==> h.owner[a] == Owner.Free
    ensures DataPages(h) == {}
  {
    forall a ensures a !in DataPages(h) { }
  }

  lemma AloneTrees(h0: Heap, h: Heap, root: int, more: set<int>)
    requires h0.trees == map[] && DataPages(h0) == {} && Grew(h0, h, root, more) && root in h.trees
    ensures h.trees.Keys == {root} && DataPages(h) == more
  {
    forall r ensures r in h.trees <==> r == root { }
    assert {} + more == more;
  }

  lemma KernelAlone(h0: Heap, h1: Heap, h: Heap, root: int, etext: Word, stacks: seq<Word>)
    requires TextEnds(etext) && h0.trees == map[] && DataPages(h0) == {}
    requires OthersSame(h0, h1, root) && StackStage(h1, h, root, etext, stacks)
    ensures h.trees.Keys == {root} && DataPages(h) == set a | a in stacks
  {
    OthersGrew(h0, h1, root);
    GrewTrans(h0, h1, h, root, {}, set a | a in stacks);
    AloneTrees(h0, h, root, {} + set a | a in stacks);
  }

  /** The kernel's page table is the only one, and the stacks are the only data pages. */
  ghost predicate Booted(h: Heap, pt: int, etext: Word, stacks: seq<Word>)
    requires TextEnds(etext)
  {
    && Rooted(h, pt) && h.trees.Keys == {pt}
    && |stacks| == NPROC && Distinct(stacks) && DataPages(h) == (set a | a in stacks)
    && MapOf(h, pt) == WithStacks(KernelMapping(etext), stacks)
  }

  lemma BootEnds(h0: Heap, h1: Heap, h: Heap, root: int, etext: Word, stacks: seq<Word>)
    requires TextEnds(etext) && h0.trees == map[] && DataPages(h0) == {} && |stacks| == NPROC
    requires Stage(h0, h1, root, KernelMapping(etext), KernelKeys(), 68) && StackStage(h1, h, root, etext, stacks)
    ensures Booted(h, root, etext, stacks) && |h.free| == |h0.free| - 134
  {
    KernelAlone(h0, h1, h, root, etext, stacks);
  }

  lemma KernelReady(h0: Heap, h1: Heap, root: int, etext: Word)
    requires TextEnds(etext) && Stage(h0, h1, root, KernelMapping(etext), KernelKeys(), 68)
    ensures Rooted(h1, root) && StackTree(h1, root, etext, []) && |h1.free| == |h0.free| - 68
  {
    assert KernelKeys() + {} == KernelKeys();
  }

  /** kvminit and procinit. */
  method KernelInit(ram: Ram, etext: Word) returns (r: Outcome, pt: int, kstack: seq<Word>, ghost stacks: seq<Word>)
    requires ram.Valid() && TextEnds(etext) && ram.trees == map[] && DataPages(ram.View()) == {}
    modifies ram
    ensures r.Done? <==> |old(ram.free)| >= 134
    ensures r.Done? ==> Booted(ram.View(), pt, etext, stacks) && |ram.free| == |old(ram.free)| - 134
    ensures r.Done? ==> |kstack| == NPROC && KStacks(kstack)
  {
    kstack, stacks := [], [];
    ghost var h0 := ram.View();
    r, pt := KvmInit(ram, etext);
    if r.Panicked? {
      return;
    }
    ghost var h1 := ram.View();
    KernelReady(h0, h1, pt, etext);
    r, kstack, stacks := ProcInit(ram, pt, etext);
    if r.Done? { BootEnds(h0, h1, ram.View(), pt, etext, stacks); }
  }

  /**
   pmm_init, kvminit and procinit, as main calls them: they need 134 pages, and leave behind one
   page table, with the kernel and a stack for every slot and nothing else.
  */
  method BootMemory(ram: Ram, etext: Word) returns (r: Outcome, pt: int, kstack: seq<Word>, ghost stacks: seq<Word>)
    requires ram.Valid() && ram.Managed() && TextEnds(etext) && ram.free == [] && ram.trees == map[]
    requires forall a :: a in ram.owner ==> ram.owner[a] == Data
    modifies ram
    ensures r.Done? <==> (PHYSTOP - PgRoundUp(ram.end)) / PGSIZE >= 134
    ensures r.Done? ==> Booted(ram.View(), pt, etext, stacks)
    ensures r.Done? ==> |ram.free| == (PHYSTOP - PgRoundUp(ram.end)) / PGSIZE - 134
    ensures r.Done? ==> |kstack| == NPROC && KStacks(kstack)
  {
    r := ram.PmmInit();
    EverythingFree(ram.View(), ram.end);
    AllFree(ram.View());
    r, pt, kstack, stacks := KernelInit(ram, etext);
  }

  lemma EverythingFree(h: Heap, end: Word)
    requires HeapOk(h) && Manages(h.pages, end) && FreeBelow(h.owner, PHYSTOP)
    ensures forall a :: a in h.owner ==> h.owner[a] == Owner.Free
  {
    forall a | a in h.owner ensures h.owner[a] == Owner.Free { assert Manageable(a, end); }
  }
}
