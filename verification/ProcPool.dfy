/** The process table as an owner of pages: what is conserved over any sequence of creations and reapings. */
module ProcPool {
  import opened Prelude
  import opened Riscv
  import opened PageTree
  import opened Heap
  import opened AddressSpace
  import opened PhysMem
  import opened KernelStacks
  import opened Destroy
  import opened DestroyTree
  import opened ProcPages
  import opened ProcMemory

  /** p->trapframe and p->pagetable of one slot, null while the slot is UNUSED. */
  datatype Slot = Slot(trapframe: int, pagetable: int)

  /** What the kernel keeps for itself: its page table and its data pages, the stacks among them. */
  datatype Kernel = Kernel(root: int, tables: Tables, data: set<int>)

  predicate Live(s: Slot) {
    s.pagetable != 0
  }

  ghost predicate SlotOk(h: Heap, ker: Kernel, s: Slot) {
    if Live(s) then
      && s.trapframe != 0 && s.trapframe in DataPages(h) && s.trapframe !in ker.data
      && s.pagetable != ker.root && ProcTree(h, s.pagetable)
    else s == Slot(0, 0)
  }

  predicate Apart(s: Slot, t: Slot) {
    Live(s) && Live(t) ==> s.trapframe != t.trapframe && s.pagetable != t.pagetable
  }

  predicate FrameOf(slots: seq<Slot>, i: nat, p: int) {
    i < |slots| && Live(slots[i]) && slots[i].trapframe == p
  }

  predicate TreeOf(slots: seq<Slot>, i: nat, r: int) {
    i < |slots| && Live(slots[i]) && slots[i].pagetable == r
  }

  ghost predicate HasFrame(slots: seq<Slot>, p: int) {
    exists i: nat :: FrameOf(slots, i, p)
  }

  ghost predicate HasTree(slots: seq<Slot>, r: int) {
    exists i: nat :: TreeOf(slots, i, r)
  }

  /** Every page is free, the kernel's, or belongs to exactly one live slot. */
  ghost predicate PoolOk(h: Heap, ker: Kernel, slots: seq<Slot>) {
    && HeapOk(h) && ker.root in h.trees && h.trees[ker.root] == ker.tables
    && ker.data <= DataPages(h)
    && SlotsOk(h, ker, slots) && AllApart(slots) && AllHeld(h, ker, slots)
  }

  ghost predicate SlotsOk(h: Heap, ker: Kernel, slots: seq<Slot>) {
    forall i :: 0 <= i < |slots| ==> SlotOk(h, ker, slots[i])
  }

  predicate AllApart(slots: seq<Slot>) {
    forall i, j :: 0 <= i < |slots| && 0 <= j < |slots| && i != j ==> Apart(slots[i], slots[j])
  }

  ghost predicate AllHeld(h: Heap, ker: Kernel, slots: seq<Slot>) {
    && (forall p {:trigger DataHeld(h, ker, slots, p)} :: DataHeld(h, ker, slots, p))
    && (forall r {:trigger TreeHeld(h, ker, slots, r)} :: TreeHeld(h, ker, slots, r))
  }

  ghost predicate DataHeld(h: Heap, ker: Kernel, slots: seq<Slot>, p: int) {
    p in DataPages(h) ==> p in ker.data || HasFrame(slots, p)
  }

  ghost predicate TreeHeld(h: Heap, ker: Kernel, slots: seq<Slot>, r: int) {
    r in h.trees ==> r == ker.root || HasTree(slots, r)
  }

  ghost predicate OwnedBy(h: Heap, s: Slot, p: int) {
    Live(s) && s.pagetable in h.trees && p in PagesOf(h, s.trapframe, s.pagetable)
  }

  predicate Kernels(ker: Kernel, p: int) {
    p in ker.data || exists k :: k in ker.tables && ker.tables[k] == p
  }

  lemma KernelTable(h: Heap, ker: Kernel, slots: seq<Slot>, p: int)
    requires PoolOk(h, ker, slots) && p in h.owner
    ensures IsTable(h, ker.root, p) <==> exists k :: k in ker.tables && ker.tables[k] == p
  {
    TableOwner(h, ker.root, p);
  }

  lemma OwnedMeans(h: Heap, ker: Kernel, s: Slot, p: int)
    requires HeapOk(h) && SlotOk(h, ker, s) && p in h.owner
    ensures OwnedBy(h, s, p) <==> Live(s) && (p == s.trapframe || IsTable(h, s.pagetable, p))
    ensures OwnedBy(h, s, p) ==>
      (h.owner[p] == Data && p == s.trapframe && p !in ker.data) ||
          (IsTable(h, s.pagetable, p) && s.pagetable != ker.root)
  {
    if Live(s) { TableOwner(h, s.pagetable, p); }
  }

  lemma KernelMeans(h: Heap, ker: Kernel, slots: seq<Slot>, p: int)
    requires PoolOk(h, ker, slots) && p in h.owner
    ensures Kernels(ker, p) <==> p in ker.data || IsTable(h, ker.root, p)
    ensures p in ker.data ==> h.owner[p] == Data
  {
    KernelTable(h, ker, slots, p);
    assert p in ker.data ==> p in DataPages(h);
  }

  lemma DataOwned(h: Heap, ker: Kernel, slots: seq<Slot>, p: int)
    requires PoolOk(h, ker, slots) && p in h.owner && h.owner[p] == Data && p !in ker.data
    ensures exists i :: 0 <= i < |slots| && OwnedBy(h, slots[i], p)
  {
    assert p in DataPages(h) && DataHeld(h, ker, slots, p);
    var i: nat :| FrameOf(slots, i, p);
    assert SlotOk(h, ker, slots[i]);
    OwnedMeans(h, ker, slots[i], p);
  }

  lemma TableOwned(h: Heap, ker: Kernel, slots: seq<Slot>, p: int)
    requires PoolOk(h, ker, slots) && p in h.owner && h.owner[p].Table? && h.owner[p].root != ker.root
    ensures exists i :: 0 <= i < |slots| && OwnedBy(h, slots[i], p)
  {
    assert TableAt(h, p) && TreeHeld(h, ker, slots, h.owner[p].root);
    var i: nat :| TreeOf(slots, i, h.owner[p].root);
    assert SlotOk(h, ker, slots[i]);
    OwnedMeans(h, ker, slots[i], p);
  }

  /** Which pages are free is decided by who owns pages, whatever happened before. */
  lemma FreeIffUnowned(h: Heap, ker: Kernel, slots: seq<Slot>, p: int)
    requires PoolOk(h, ker, slots) && p in h.owner
    ensures h.owner[p] == Owner.Free <==> !Kernels(ker, p) && forall i :: 0 <= i < |slots| ==> !OwnedBy(h, slots[i], p)
  {
    KernelMeans(h, ker, slots, p);
    forall i | 0 <= i < |slots| && OwnedBy(h, slots[i], p) ensures h.owner[p] != Owner.Free {
      assert SlotOk(h, ker, slots[i]);
      OwnedMeans(h, ker, slots[i], p);
    }
    if h.owner[p] == Data && p !in ker.data { DataOwned(h, ker, slots, p); }
    if h.owner[p].Table? && h.owner[p].root != ker.root { TableOwned(h, ker, slots, p); }
  }

  /** No page belongs to two slots, or to a slot and the kernel. */
  lemma OneOwner(h: Heap, ker: Kernel, slots: seq<Slot>, i: nat, p: int)
    requires PoolOk(h, ker, slots) && p in h.owner && i < |slots| && OwnedBy(h, slots[i], p)
    ensures !Kernels(ker, p) && forall j :: 0 <= j < |slots| && j != i ==> !OwnedBy(h, slots[j], p)
  {
    assert SlotOk(h, ker, slots[i]);
    KernelMeans(h, ker, slots, p);
    OwnedMeans(h, ker, slots[i], p);
    forall j | 0 <= j < |slots| && j != i ensures !OwnedBy(h, slots[j], p) {
      assert SlotOk(h, ker, slots[j]) && Apart(slots[i], slots[j]);
      OwnedMeans(h, ker, slots[j], p);
    }
  }

  lemma FreeByOwner(h: Heap, p: int)
    requires HeapOk(h)
    ensures p in FreePages(h) <==> p in h.owner && h.owner[p] == Owner.Free
  {
  }

  /** Slot s in h and slot s' in h' have the same pages, or both none. */
  ghost predicate SamePages(h: Heap, h': Heap, s: Slot, s': Slot) {
    if Live(s) then
      s' == s && s.pagetable in h.trees && s.pagetable in h'.trees && h'.trees[s.pagetable] == h.trees[s.pagetable]
    else !Live(s')
  }

  lemma SamePagesOwned(h: Heap, h': Heap, s: Slot, s': Slot, p: int)
    requires SamePages(h, h', s, s')
    ensures OwnedBy(h', s', p) <==> OwnedBy(h, s, p)
  {
  }

  lemma SameFreeAt(h: Heap, h': Heap, ker: Kernel, slots: seq<Slot>, slots': seq<Slot>, p: int)
    requires PoolOk(h, ker, slots) && PoolOk(h', ker, slots') && h'.pages == h.pages && |slots'| == |slots|
    requires forall k :: 0 <= k < |slots| ==> SamePages(h, h', slots[k], slots'[k])
    ensures p in FreePages(h') <==> p in FreePages(h)
  {
    FreeByOwner(h, p);
    FreeByOwner(h', p);
    if p in h.owner {
      FreeIffUnowned(h, ker, slots, p);
      FreeIffUnowned(h', ker, slots', p);
      forall k | 0 <= k < |slots| ensures OwnedBy(h', slots'[k], p) <==> OwnedBy(h, slots[k], p) {
        SamePagesOwned(h, h', slots[k], slots'[k], p);
      }
    }
  }

  /** If every slot has the same pages at two moments, the same pages are free. */
  lemma SameOwnersNoLoss(h: Heap, h': Heap, ker: Kernel, slots: seq<Slot>, slots': seq<Slot>)
    requires PoolOk(h, ker, slots) && PoolOk(h', ker, slots') && h'.pages == h.pages && |slots'| == |slots|
    requires forall k :: 0 <= k < |slots| ==> SamePages(h, h', slots[k], slots'[k])
    ensures FreePages(h') == FreePages(h) && |h'.free| == |h.free|
  {
    forall p ensures p in FreePages(h') <==> p in FreePages(h) {
      SameFreeAt(h, h', ker, slots, slots', p);
    }
    assert FreePages(h') == FreePages(h);
    DistinctCount(h.free);
    DistinctCount(h'.free);
  }

  // ----- a slot comes to life

  lemma TreeStays(h: Heap, h': Heap, pt: int, tf: int, r: int)
    requires Took(h, h', tf, pt) && ProcTree(h, r)
    ensures r != pt && ProcTree(h', r) && TablePages(h', r) == TablePages(h, r)
  {
    assert h'.trees[r] == h.trees[r] && MapOf(h', r) == MapOf(h, r);
  }

  lemma SlotStays(h: Heap, h': Heap, ker: Kernel, s: Slot, tf: int, pt: int)
    requires Took(h, h', tf, pt) && SlotOk(h, ker, s)
    ensures SlotOk(h', ker, s) && Apart(s, Slot(tf, pt)) && Apart(Slot(tf, pt), s)
  {
    if Live(s) { TreeStays(h, h', pt, tf, s.pagetable); }
  }

  lemma SlotStarts(h: Heap, h': Heap, ker: Kernel, slots: seq<Slot>, tf: int, pt: int)
    requires PoolOk(h, ker, slots) && Took(h, h', tf, pt) && tf != 0 && pt != 0
    ensures SlotOk(h', ker, Slot(tf, pt)) && ker.root in h'.trees && h'.trees[ker.root] == ker.tables &&
      ker.data <= DataPages(h')
  {
    assert tf !in ker.data;
  }

  lemma FillSlot(slots: seq<Slot>, i: nat, s: Slot, p: int)
    requires i < |slots| && !Live(slots[i]) && Live(s)
    ensures HasFrame(slots, p) || p == s.trapframe ==> HasFrame(slots[i := s], p)
    ensures HasTree(slots, p) || p == s.pagetable ==> HasTree(slots[i := s], p)
  {
    var slots' := slots[i := s];
    assert FrameOf(slots', i, s.trapframe) && TreeOf(slots', i, s.pagetable);
    if HasFrame(slots, p) {
      var j: nat :| FrameOf(slots, j, p);
      assert FrameOf(slots', j, p);
    }
    if HasTree(slots, p) {
      var j: nat :| TreeOf(slots, j, p);
      assert TreeOf(slots', j, p);
    }
  }

  lemma HeldTook(h: Heap, h': Heap, ker: Kernel, slots: seq<Slot>, i: nat, tf: int, pt: int)
    requires Took(h, h', tf, pt) && i < |slots| && !Live(slots[i]) && pt != 0 && AllHeld(h, ker, slots)
    ensures AllHeld(h', ker, slots[i := Slot(tf, pt)])
  {
    var slots' := slots[i := Slot(tf, pt)];
    forall p ensures DataHeld(h', ker, slots', p) && TreeHeld(h', ker, slots', p) {
      assert DataHeld(h, ker, slots, p) && TreeHeld(h, ker, slots, p);
      FillSlot(slots, i, Slot(tf, pt), p);
    }
  }

  lemma SlotStaysAt(h: Heap, h': Heap, ker: Kernel, slots: seq<Slot>, i: nat, j: nat, s: Slot)
    requires i < |slots| && j < |slots| && Took(h, h', s.trapframe, s.pagetable) && SlotOk(h', ker, s) &&
      SlotOk(h, ker, slots[j])
    ensures SlotOk(h', ker, slots[i := s][j])
    ensures Apart(slots[j], s) && Apart(s, slots[j])
  {
    SlotStays(h, h', ker, slots[j], s.trapframe, s.pagetable);
  }

  lemma ApartFilled(slots: seq<Slot>, i: nat, s: Slot)
    requires i < |slots| && AllApart(slots) && forall j :: 0 <= j < |slots| ==> Apart(slots[j], s) && Apart(s, slots[j])
    ensures AllApart(slots[i := s])
  {
  }

  lemma SlotsTook(h: Heap, h': Heap, ker: Kernel, slots: seq<Slot>, i: nat, s: Slot)
    requires Took(h, h', s.trapframe, s.pagetable) && i < |slots| && SlotsOk(h, ker, slots) && AllApart(slots) &&
      SlotOk(h', ker, s)
    ensures SlotsOk(h', ker, slots[i := s]) && AllApart(slots[i := s])
  {
    forall j | 0 <= j < |slots|
      ensures SlotOk(h', ker, slots[i := s][j]) && Apart(slots[j], s) && Apart(s, slots[j])
    {
      assert SlotOk(h, ker, slots[j]);
      SlotStaysAt(h, h', ker, slots, i, j, s);
    }
    ApartFilled(slots, i, s);
  }

  lemma PoolTook(h: Heap, h': Heap, ker: Kernel, slots: seq<Slot>, i: nat, tf: int, pt: int)
    requires PoolOk(h, ker, slots) && Took(h, h', tf, pt) && tf != 0 && pt != 0 && i < |slots| && !Live(slots[i])
    ensures PoolOk(h', ker, slots[i := Slot(tf, pt)])
  {
    SlotStarts(h, h', ker, slots, tf, pt);
    SlotsTook(h, h', ker, slots, i, Slot(tf, pt));
    HeldTook(h, h', ker, slots, i, tf, pt);
  }

  // ----- nothing has come of it

  lemma TreeKept(h: Heap, h': Heap, r: int)
    requires HeapOk(h) && HeapOk(h') && h'.owner == h.owner && h'.trees == h.trees && InUseKept(h, h') && r in h.trees
    ensures MapOf(h', r) == MapOf(h, r)
  {
    assert TreeAt(h, r);
    forall k | k in h.trees[r]
      ensures h.trees[r][k] in h'.mem && h'.mem[h.trees[r][k]] == h.mem[h.trees[r][k]]
    {
      assert KeptAt(h, h', h.trees[r][k]);
    }
    TreeFrame(h.mem, h'.mem, h.trees[r]);
  }

  lemma PoolKept(h: Heap, h': Heap, ker: Kernel, slots: seq<Slot>)
    requires PoolOk(h, ker, slots) && HeapOk(h') && h'.owner == h.owner && h'.trees == h.trees && InUseKept(h, h')
    ensures PoolOk(h', ker, slots)
  {
    assert DataPages(h') == DataPages(h);
    forall i | 0 <= i < |slots| ensures SlotOk(h', ker, slots[i]) {
      assert SlotOk(h, ker, slots[i]);
      if Live(slots[i]) { TreeKept(h, h', slots[i].pagetable); }
    }
    forall p ensures DataHeld(h', ker, slots, p) && TreeHeld(h', ker, slots, p) {
      assert DataHeld(h, ker, slots, p) && TreeHeld(h, ker, slots, p);
    }
  }

  // ----- a slot is freed

  /** From h to h' free_process has run on slot s. */
  ghost predicate GaveBack(h: Heap, h': Heap, s: Slot) {
    && HeapOk(h) && HeapOk(h') && Live(s) && s.trapframe in DataPages(h) && ProcTree(h, s.pagetable)
    && h'.owner.Keys == h.owner.Keys && h'.trees == h.trees - {s.pagetable}
    && ReapedAll(h, h', PagesOf(h, s.trapframe, s.pagetable))
  }

  lemma GivesBackInUse(h: Heap, h': Heap, s: Slot)
    requires GaveBack(h, h', s)
    ensures var own := PagesOf(h, s.trapframe, s.pagetable);
      own <= h.owner.Keys && forall p :: p in own ==> h.owner[p] != Owner.Free
  {
    TablePagesManaged(h, s.pagetable);
    forall p | p in TablePages(h, s.pagetable) ensures h.owner[p] != Owner.Free { TableOwner(h, s.pagetable, p); }
  }

  /** free_process returns exactly the pages of the slot. */
  lemma GivesBack(h: Heap, h': Heap, s: Slot)
    requires GaveBack(h, h', s)
    ensures FreePages(h') == FreePages(h) + PagesOf(h, s.trapframe, s.pagetable)
    ensures |h'.free| == |h.free| + 4
  {
    GivesBackInUse(h, h', s);
    FreedOnce(h, h', PagesOf(h, s.trapframe, s.pagetable));
    FourPages(h, s);
  }

  lemma ThreeTables(t: Tables)
    requires t.Keys == StackKeys() && forall k, l :: k in t && l in t && t[k] == t[l] ==> k == l
    ensures |set k | k in t :: t[k]| == 3
  {
    var a, b, c := t[ROOT], t[Key(1, 255)], t[Key(0, 0x1_FFFF)];
    assert (set k | k in t :: t[k]) == {a, b, c};
    assert a != b && b != c && a != c;
  }

  lemma FourPages(h: Heap, s: Slot)
    requires HeapOk(h) && s.trapframe in DataPages(h) && ProcTree(h, s.pagetable)
    ensures |PagesOf(h, s.trapframe, s.pagetable)| == 4
  {
    assert TreeAt(h, s.pagetable);
    TableOwner(h, s.pagetable, s.trapframe);
    ThreeTables(h.trees[s.pagetable]);
  }

  lemma OtherTreeStays(h: Heap, h': Heap, s: Slot, r: int)
    requires GaveBack(h, h', s) && r in h.trees && r != s.pagetable
    ensures r in h'.trees && MapOf(h', r) == MapOf(h, r)
  {
    assert TreeAt(h, r) && TreeAt(h', r);
    forall k | k in h.trees[r]
      ensures h.trees[r][k] in h'.mem && h'.mem[h.trees[r][k]] == h.mem[h.trees[r][k]]
    {
      var p := h.trees[r][k];
      assert PageReaped(h, h', p, p in PagesOf(h, s.trapframe, s.pagetable));
      assert h'.owner[p] == Table(r, k);
    }
    TreeFrame(h.mem, h'.mem, h.trees[r]);
  }

  lemma DataLeft(h: Heap, h': Heap, s: Slot, p: int)
    requires GaveBack(h, h', s)
    ensures p in DataPages(h') <==> p in DataPages(h) && p != s.trapframe
  {
    if p in h.owner {
      assert PageReaped(h, h', p, p in PagesOf(h, s.trapframe, s.pagetable));
      TableOwner(h, s.pagetable, p);
    }
  }

  lemma SlotSurvives(h: Heap, h': Heap, ker: Kernel, s: Slot, t: Slot)
    requires GaveBack(h, h', s) && SlotOk(h, ker, t) && Apart(t, s)
    ensures SlotOk(h', ker, t)
  {
    if Live(t) {
      OtherTreeStays(h, h', s, t.pagetable);
      DataLeft(h, h', s, t.trapframe);
    }
  }

  lemma KernelSurvives(h: Heap, h': Heap, ker: Kernel, slots: seq<Slot>, s: Slot)
    requires PoolOk(h, ker, slots) && GaveBack(h, h', s) && SlotOk(h, ker, s)
    ensures ker.root in h'.trees && h'.trees[ker.root] == ker.tables && ker.data <= DataPages(h')
  {
    forall p | p in ker.data ensures p in DataPages(h') { DataLeft(h, h', s, p); }
  }

  lemma ClearSlot(slots: seq<Slot>, i: nat, p: int)
    requires i < |slots|
    ensures HasFrame(slots, p) && p != slots[i].trapframe ==> HasFrame(slots[i := Slot(0, 0)], p)
    ensures HasTree(slots, p) && p != slots[i].pagetable ==> HasTree(slots[i := Slot(0, 0)], p)
  {
    var slots' := slots[i := Slot(0, 0)];
    if HasFrame(slots, p) && p != slots[i].trapframe {
      var j: nat :| FrameOf(slots, j, p);
      assert FrameOf(slots', j, p);
    }
    if HasTree(slots, p) && p != slots[i].pagetable {
      var j: nat :| TreeOf(slots, j, p);
      assert TreeOf(slots', j, p);
    }
  }

  lemma HeldGaveBack(h: Heap, h': Heap, ker: Kernel, slots: seq<Slot>, i: nat)
    requires i < |slots| && GaveBack(h, h', slots[i]) && AllHeld(h, ker, slots)
    ensures AllHeld(h', ker, slots[i := Slot(0, 0)])
  {
    var slots' := slots[i := Slot(0, 0)];
    forall p ensures DataHeld(h', ker, slots', p) && TreeHeld(h', ker, slots', p) {
      assert DataHeld(h, ker, slots, p) && TreeHeld(h, ker, slots, p);
      DataLeft(h, h', slots[i], p);
      ClearSlot(slots, i, p);
    }
  }

  lemma SlotSurvivesAt(h: Heap, h': Heap, ker: Kernel, slots: seq<Slot>, i: nat, j: nat)
    requires i < |slots| && j < |slots| && GaveBack(h, h', slots[i])
    requires SlotOk(h, ker, slots[j]) && (j != i ==> Apart(slots[j], slots[i]))
    ensures SlotOk(h', ker, slots[i := Slot(0, 0)][j])
  {
    if j != i { SlotSurvives(h, h', ker, slots[i], slots[j]); }
  }

  lemma ApartCleared(slots: seq<Slot>, i: nat)
    requires i < |slots| && AllApart(slots)
    ensures AllApart(slots[i := Slot(0, 0)])
  {
  }

  lemma SlotsGaveBack(h: Heap, h': Heap, ker: Kernel, slots: seq<Slot>, i: nat)
    requires i < |slots| && GaveBack(h, h', slots[i]) && SlotsOk(h, ker, slots) && AllApart(slots)
    ensures SlotsOk(h', ker, slots[i := Slot(0, 0)])
  {
    var slots' := slots[i := Slot(0, 0)];
    forall j | 0 <= j < |slots'| ensures SlotOk(h', ker, slots'[j]) {
      assert SlotOk(h, ker, slots[j]) && (j != i ==> Apart(slots[j], slots[i]));
      SlotSurvivesAt(h, h', ker, slots, i, j);
    }
  }

  lemma PoolGaveBack(h: Heap, h': Heap, ker: Kernel, slots: seq<Slot>, i: nat)
    requires PoolOk(h, ker, slots) && i < |slots| && GaveBack(h, h', slots[i])
    ensures PoolOk(h', ker, slots[i := Slot(0, 0)])
  {
    assert SlotOk(h, ker, slots[i]);
    KernelSurvives(h, h', ker, slots, slots[i]);
    SlotsGaveBack(h, h', ker, slots, i);
    ApartCleared(slots, i);
    HeldGaveBack(h, h', ker, slots, i);
  }

  // ----- the table

  function LiveCount(slots: seq<Slot>): (r: nat) {
    if slots == [] then 0 else LiveCount(slots[..|slots| - 1]) + if Live(slots[|slots| - 1]) then 1 else 0
  }

  lemma {:induction false} LiveCountUpdate(slots: seq<Slot>, i: nat, s: Slot)
    requires i < |slots|
    ensures LiveCount(slots[i := s]) ==
      LiveCount(slots) + (if Live(s) then 1 else 0) - (if Live(slots[i]) then 1 else 0)
  {
    var n := |slots| - 1;
    if i < n {
      LiveCountUpdate(slots[..n], i, s);
      assert slots[i := s][..n] == slots[..n][i := s];
    } else {
      assert slots[i := s][..n] == slots[..n];
    }
  }

  /** The trapframe and pagetable fields of proc[], next to the memory they point into. */
  class ProcTable {
    const ram: Ram
    var slots: seq<Slot>
    ghost const ker: Kernel
    ghost const total: nat  // free pages when no slot is in use

    ghost predicate Valid()
      reads this, ram
    {
      && ram.Managed() && PoolOk(ram.View(), ker, slots)
      && |ram.free| + 4 * LiveCount(slots) == total
    }

    /** The table after procinit: the kernel has one page table and what data pages it likes. */
    constructor (ram: Ram, n: nat, ghost kernel: int)
      requires ram.Valid() && ram.Managed() && ram.trees.Keys == {kernel}
      ensures Valid() && this.ram == ram && |slots| == n && forall i :: 0 <= i < n ==> !Live(slots[i])
    {
      this.ram := ram;
      slots := seq(n, i => Slot(0, 0));
      ker := Kernel(kernel, ram.trees[kernel], DataPages(ram.View()));
      total := |ram.free|;
      new;
      NoneLive(slots);
      StartOk(ram.View(), ker, slots);
    }

    /**
     alloc_process: it looks for the first slot that is not in use.  Without one it returns null
     (here -1), and with a trampoline that is not page aligned too; then no page is lost.
    */
    method AllocSlot(trampoline: Word) returns (r: Outcome, i: int)
      requires Valid()
      modifies this`slots, ram
      ensures AllLive(old(slots)) ==> r.Done? && ram.View() == old(ram.View())
      ensures !AllLive(old(slots)) ==> (r.Done? <==> |old(ram.free)| >= (if Aligned(trampoline) then 4 else 2))
      ensures r.Done? ==> Valid() && |slots| == |old(slots)| && -1 <= i < |slots|
      ensures r.Done? ==> (i == -1 <==> AllLive(old(slots)) || !Aligned(trampoline))
      ensures r.Done? && i == -1 ==> slots == old(slots) && FreePages(ram.View()) == FreePages(old(ram.View()))
      ensures r.Done? && i != -1 ==>
        && FirstIdle(old(slots), i) && Live(slots[i]) && slots == old(slots)[i := slots[i]]
        && Taken(old(ram.View()), ram.View(), slots[i])
    {
      i := FirstUnused(slots);
      if i == |slots| {
        return Done, -1;
      }
      var found;
      r, found := AllocAt(i, trampoline);
      i := if found then i else -1;
    }

    /** alloc_process from the label found on; false for null. */
    method AllocAt(i: nat, trampoline: Word) returns (r: Outcome, found: bool)
      requires Valid() && i < |slots| && !Live(slots[i])
      modifies this`slots, ram
      ensures r.Done? <==> |old(ram.free)| >= (if Aligned(trampoline) then 4 else 2)
      ensures r.Done? ==> Valid() && |slots| == |old(slots)| && (found <==> Aligned(trampoline))
      ensures r.Done? && !found ==> slots == old(slots) && FreePages(ram.View()) == FreePages(old(ram.View()))
      ensures r.Done? && found ==> Live(slots[i]) && slots == old(slots)[i := slots[i]]
      ensures r.Done? && found ==> Taken(old(ram.View()), ram.View(), slots[i])
    {
      ghost var h := ram.View();
      var tf, pt;
      found := false;
      r, tf, pt := AllocProcess(ram, trampoline);
      if r.Panicked? {
        return;
      }
      if pt == 0 {
        PoolKept(h, ram.View(), ker, slots);
        return;
      }
      TookPages(h, ram.View(), tf, pt);
      PoolTook(h, ram.View(), ker, slots, i, tf, pt);
      LiveCountUpdate(slots, i, Slot(tf, pt));
      slots, found := slots[i := Slot(tf, pt)], true;
    }

    /** free_process for slot i, whose fields may be null. */
    method FreeSlot(i: nat) returns (r: Outcome)
      requires Valid() && i < |slots|
      modifies this`slots, ram
      ensures r.Done? && Valid() && slots == old(slots)[i := Slot(0, 0)]
      ensures !Live(old(slots)[i]) ==> ram.View() == old(ram.View())
      ensures Live(old(slots)[i]) ==>
        && ProcTree(old(ram.View()), old(slots)[i].pagetable)
        && FreePages(ram.View()) ==
           FreePages(old(ram.View())) + PagesOf(old(ram.View()), old(slots)[i].trapframe, old(slots)[i].pagetable)
    {
      ghost var h, s := ram.View(), slots[i];
      SlotReady(h, ker, slots, i);
      r := FreeProcess(ram, slots[i].trapframe, slots[i].pagetable);
      if Live(s) {
        FreedGaveBack(h, ram.View(), ker, slots, i);
        GivesBack(h, ram.View(), s);
        PoolGaveBack(h, ram.View(), ker, slots, i);
      } else {
        assert slots[i := Slot(0, 0)] == slots by { assert SlotOk(h, ker, slots[i]); }
      }
      LiveCountUpdate(slots, i, Slot(0, 0));
      slots := slots[i := Slot(0, 0)];
    }
  }

  /** The pages of slot s have left the free list, and no others. */
  ghost predicate Taken(h: Heap, h': Heap, s: Slot) {
    && ProcTree(h', s.pagetable)
    && var own := PagesOf(h', s.trapframe, s.pagetable);
    && FreePages(h) == FreePages(h') + own && FreePages(h') !! own
  }

  /** The search of alloc_process. */
  method FirstUnused(slots: seq<Slot>) returns (i: nat)
    ensures if AllLive(slots) then i == |slots| else FirstIdle(slots, i)
  {
    i := 0;
    while i < |slots| && slots[i].pagetable != 0
      invariant 0 <= i <= |slots| && forall k :: 0 <= k < i ==> Live(slots[k])
    {
      i := i + 1;
    }
  }

  predicate AllLive(slots: seq<Slot>) {
    forall i :: 0 <= i < |slots| ==> Live(slots[i])
  }

  /** Slot i is the first one without pages. */
  predicate FirstIdle(slots: seq<Slot>, i: int) {
    0 <= i < |slots| && !Live(slots[i]) && forall k :: 0 <= k < i ==> Live(slots[k])
  }

  lemma {:induction false} NoneLive(slots: seq<Slot>)
    requires forall i :: 0 <= i < |slots| ==> slots[i] == Slot(0, 0)
    ensures LiveCount(slots) == 0
  {
    if slots != [] { NoneLive(slots[..|slots| - 1]); }
  }

  lemma StartOk(h: Heap, ker: Kernel, slots: seq<Slot>)
    requires HeapOk(h) && h.trees.Keys == {ker.root} && ker.tables == h.trees[ker.root] && ker.data == DataPages(h)
    requires forall i :: 0 <= i < |slots| ==> slots[i] == Slot(0, 0)
    ensures PoolOk(h, ker, slots)
  {
  }

  /** What free_process relies on holds for every slot. */
  lemma SlotReady(h: Heap, ker: Kernel, slots: seq<Slot>, i: nat)
    requires PoolOk(h, ker, slots) && i < |slots|
    ensures FreeReady(h, slots[i].trapframe, slots[i].pagetable) && 0 <= slots[i].trapframe < TWO64
  {
    assert SlotOk(h, ker, slots[i]);
    if Live(slots[i]) { assert PageIn(h.mem, slots[i].trapframe); }
  }

  /** What free_process has done to a slot in use. */
  lemma FreedGaveBack(h: Heap, h': Heap, ker: Kernel, slots: seq<Slot>, i: nat)
    requires PoolOk(h, ker, slots) && i < |slots| && Live(slots[i])
    requires FreeReady(h, slots[i].trapframe, slots[i].pagetable)
    requires FreedProcess(h, h', slots[i].trapframe, slots[i].pagetable)
    ensures GaveBack(h, h', slots[i])
  {
    assert SlotOk(h, ker, slots[i]);
    var s := slots[i];
    assert PagesBehind(h, s.trapframe, s.pagetable) == PagesOf(h, s.trapframe, s.pagetable);
  }
}
