/**
 What destroy_pagetable (kernel/mm/vm.c) does to a whole tree: every table and every leaf page goes
 back to the list, once.
*/
module DestroyTree {
  import opened Prelude
  import opened Riscv
  import opened PageTree
  import opened Heap
  import opened AddressSpace
  import opened PhysMem
  import opened Destroy

  // ----- the pages of a tree

  ghost predicate LeadsTo(h: Heap, root: int, v: int, p: int)
    requires root in h.trees
  {
    v in MapOf(h, root) && Pte2Pa(MapOf(h, root)[v]) == p
  }

  ghost predicate IsLeaf(h: Heap, root: int, p: int)
    requires root in h.trees
  {
    exists v :: LeadsTo(h, root, v, p)
  }

  predicate IsTable(h: Heap, root: int, p: int) {
    p in h.owner && h.owner[p].Table? && h.owner[p].root == root
  }

  /** The tables of the tree, and the managed pages it maps. */
  ghost function Victims(h: Heap, root: int): (r: set<int>)
    requires root in h.trees
  {
    set p | p in h.owner && (IsTable(h, root, p) || IsLeaf(h, root, p))
  }

  /**
   What a caller owes: no mapping without a permission, and managed pages that are mapped are data and
   mapped once.
  */
  ghost predicate Destroyable(h: Heap, root: int) {
    && Rooted(h, root) && AllPermit(h, root)
    && (forall v, p :: LeadsTo(h, root, v, p) && p in h.pages ==> h.owner[p] == Data)
    && (forall v, w, p :: LeadsTo(h, root, v, p) && LeadsTo(h, root, w, p) && p in h.pages ==> v == w)
  }

  /** No mapping is without a permission: destroy_pagetable takes such an entry for a table. */
  ghost predicate AllPermit(h: Heap, root: int)
    requires root in h.trees
  {
    EachPermits(MapOf(h, root))
  }

  predicate EachPermits(m: map<int, Word>) {
    forall v :: v in m ==> Permits(m[v])
  }

  lemma PermitsNext(m: map<int, Word>, v: int, w: Word)
    requires EachPermits(m)
    ensures EachPermits(m[v := w]) <==> Permits(w)
  {
    assert m[v := w][v] == w;
  }

  /** map_page keeps this if and only if its permissions contain R, W or X. */
  lemma MapPageKeepsPermits(h: Heap, h': Heap, root: int, v: int, pa: Word, perm: int)
    requires Rooted(h, root) && AllPermit(h, root) && 0 <= v < VPNS
    requires MapsOne(h, h', root, v, LeafPte(pa, perm))
    ensures AllPermit(h', root) <==> Permits(perm % TWO64)
  {
    FlagsOfLeaf(pa, perm);
    PermitsNext(MapOf(h, root), v, LeafPte(pa, perm));
  }

  /** An entry without permissions reads like a link to a table in the page it maps. */
  lemma PermissionlessIsTable(pa: Word)
    ensures Riscv.Valid(LeafPte(pa, 0)) && !Permits(LeafPte(pa, 0)) && Pte2Pa(LeafPte(pa, 0)) == PgRoundDown(pa)
  {
    PteRoundTrip(pa, 0);
    FlagsOfLeaf(pa, 0);
  }

  /** free_page accepts every page the tree maps. */
  ghost predicate AllManaged(h: Heap, root: int)
    requires root in h.trees
  {
    forall v, p :: LeadsTo(h, root, v, p) ==> p in h.pages
  }

  // ----- the plan for the recursion

  ghost function LeafOf(h: Heap, root: int, p: int): (v: int)
    requires root in h.trees && IsLeaf(h, root, p)
    ensures LeadsTo(h, root, v, p)
  {
    var v :| LeadsTo(h, root, v, p);
    v
  }

  ghost function PlanFor(h: Heap, root: int): (r: Plan)
    requires root in h.trees
  {
    Plan(h, root, map p | p in h.owner && IsLeaf(h, root, p) :: LeafOf(h, root, p))
  }

  lemma PlanForOk(h: Heap, root: int)
    requires Destroyable(h, root)
    ensures PlanOk(PlanFor(h, root))
  {
    var d, m := PlanFor(h, root), MapOf(h, root);
    forall p | p in d.leaves
      ensures h.owner[p] == Data && d.leaves[p] in m && Pte2Pa(m[d.leaves[p]]) == p
    {
      assert LeadsTo(h, root, d.leaves[p], p);
    }
    forall v | v in m && Pte2Pa(m[v]) in h.pages
      ensures Pte2Pa(m[v]) in d.leaves && d.leaves[Pte2Pa(m[v])] == v
    {
      assert LeadsTo(h, root, v, Pte2Pa(m[v]));
      assert LeadsTo(h, root, LeafOf(h, root, Pte2Pa(m[v])), Pte2Pa(m[v]));
    }
  }

  /** Everything the recursion frees from the root, and nothing else. */
  lemma BelowRoot(h: Heap, root: int, p: int)
    requires Destroyable(h, root) && p in h.owner
    ensures Below(PlanFor(h, root), ROOT, p) <==> p in Victims(h, root)
  {
    var d := PlanFor(h, root);
    PlanForOk(h, root);
    if PlaceOf(d, p).At? { PlaceAt(d, p); }
  }

  lemma PlaceAt(d: Plan, p: int)
    requires PlanOk(d) && PlaceOf(d, p).At?
    ensures var at := PlaceOf(d, p); 0 <= at.vpn < VPNS && at.height <= 3 && PathKey(at.vpn, 2) == ROOT
  {
    if d.heap.owner[p].Table? && d.heap.owner[p].root == d.root {
      assert TableAt(d.heap, p);
      TableFits(d, d.heap.owner[p].key);
      FirstFits(d.heap.owner[p].key);
    } else {
      assert d.leaves[p] in MapOf(d.heap, d.root);
    }
  }

  lemma AllTargets(h: Heap, root: int)
    requires Destroyable(h, root)
    ensures TargetsOk(PlanFor(h, root), ROOT) <==> AllManaged(h, root)
  {
    var d, m := PlanFor(h, root), MapOf(h, root);
    if TargetsOk(d, ROOT) {
      forall v, p | LeadsTo(h, root, v, p) ensures p in h.pages {
        assert PathKey(v, 2) == ROOT && TargetOk(d, v);
      }
    }
    if AllManaged(h, root) {
      forall v | 0 <= v < VPNS ensures TargetOk(d, v) {
        if v in m { assert LeadsTo(h, root, v, Pte2Pa(m[v])); }
      }
    }
  }

  // ----- before the first page is freed

  /** The tree is no longer looked at as one: its tables are pages like any other. */
  ghost function Abandoned(h: Heap, root: int): (r: Heap) {
    h.(owner := map a | a in h.owner :: if IsTable(h, root, a) then Data else h.owner[a], trees := h.trees - {root})
  }

  lemma AbandonedOk(h: Heap, root: int)
    requires Rooted(h, root)
    ensures HeapOk(Abandoned(h, root))
  {
    var g := Abandoned(h, root);
    forall r | r in g.trees ensures TreeAt(g, r) { assert TreeAt(h, r); }
    forall a | a in g.owner ensures TableAt(g, a) { assert TableAt(h, a); }
    assert FreeOk(g);
  }

  lemma AbandonedReady(h: Heap, root: int)
    requires Destroyable(h, root)
    ensures NodeReady(PlanFor(h, root), ROOT, root, Abandoned(h, root))
  {
    var d, g := PlanFor(h, root), Abandoned(h, root);
    PlanForOk(h, root);
    AbandonedOk(h, root);
    assert TreeAt(h, root);
    TableFits(d, ROOT);
    forall p | p in h.owner && Below(d, ROOT, p) ensures IntactAt(d, g, p) { }
  }

  // ----- the call

  ghost predicate ReapedAll(h: Heap, h': Heap, victims: set<int>) {
    forall p :: p in h.owner ==> PageReaped(h, h', p, p in victims)
  }

  lemma RootReaped(h: Heap, root: int, h': Heap)
    requires Destroyable(h, root) && Reaped(PlanFor(h, root), ROOT, Abandoned(h, root), h')
    ensures ReapedAll(h, h', Victims(h, root))
  {
    forall p | p in h.owner ensures PageReaped(h, h', p, p in Victims(h, root)) {
      BelowRoot(h, root, p);
      assert PageReaped(Abandoned(h, root), h', p, Below(PlanFor(h, root), ROOT, p));
    }
  }

  /** destroy_pagetable; it panics if and only if it comes across a mapped page that free_page refuses. */
  method DestroyPagetable(ram: Ram, pt: int) returns (r: Outcome)
    requires ram.Managed() && Destroyable(ram.View(), pt)
    modifies ram
    ensures r.Done? <==> AllManaged(old(ram.View()), pt)
    ensures r.Done? ==> ram.Valid() && ram.trees == old(ram.trees) - {pt} && ram.owner.Keys == old(ram.owner).Keys
    ensures r.Done? ==> ReapedAll(old(ram.View()), ram.View(), Victims(old(ram.View()), pt))
  {
    ghost var h := ram.View();
    AbandonedReady(h, pt);
    AllTargets(h, pt);
    ram.owner, ram.trees := Abandoned(h, pt).owner, Abandoned(h, pt).trees;
    assert ram.View() == Abandoned(h, pt);
    r := DestroyNode(ram, pt, PlanFor(h, pt), ROOT);
    if r.Done? { RootReaped(h, pt, ram.View()); }
  }

  // ----- what it means for the free list and for the other trees

  function FreePages(h: Heap): (r: set<int>) {
    set p | p in h.free
  }

  lemma {:induction false} DistinctCount(s: seq<int>)
    requires Distinct(s)
    ensures |set p | p in s| == |s|
  {
    if s != [] {
      var n := |s| - 1;
      DistinctCount(s[..n]);
      assert (set p | p in s) == (set p | p in s[..n]) + {s[n]};
    }
  }

  /** Every victim is on the list exactly once, after the pages that were there before. */
  lemma FreedOnce(h: Heap, h': Heap, victims: set<int>)
    requires HeapOk(h) && HeapOk(h') && h'.owner.Keys == h.owner.Keys && ReapedAll(h, h', victims)
    requires victims <= h.owner.Keys && forall p :: p in victims ==> h.owner[p] != Owner.Free
    ensures FreePages(h') == FreePages(h) + victims && FreePages(h) !! victims
    ensures |h'.free| == |h.free| + |victims|
  {
    forall p ensures p in FreePages(h') <==> p in FreePages(h) + victims {
      if p in h.owner { assert PageReaped(h, h', p, p in victims); }
    }
    DistinctCount(h.free);
    DistinctCount(h'.free);
  }

  lemma VictimsInUse(h: Heap, root: int)
    requires Destroyable(h, root)
    ensures Victims(h, root) <= h.owner.Keys && forall p :: p in Victims(h, root) ==> h.owner[p] != Owner.Free
  {
    forall p | p in Victims(h, root) ensures h.owner[p] != Owner.Free {
      if IsLeaf(h, root, p) { assert LeadsTo(h, root, LeafOf(h, root, p), p); }
    }
  }

  /** destroy_pagetable puts every page of the tree on the free list, once, and no other page. */
  lemma TreeFreedOnce(h: Heap, root: int, h': Heap)
    requires Destroyable(h, root) && HeapOk(h') && h'.owner.Keys == h.owner.Keys && ReapedAll(h, h', Victims(h, root))
    ensures FreePages(h') == FreePages(h) + Victims(h, root) && FreePages(h) !! Victims(h, root)
    ensures |h'.free| == |h.free| + |Victims(h, root)|
  {
    VictimsInUse(h, root);
    FreedOnce(h, h', Victims(h, root));
  }

  /** The translations of all other trees stay as they are. */
  lemma OtherTreesStay(h: Heap, root: int, h': Heap, r: int)
    requires Destroyable(h, root) && HeapOk(h') && ReapedAll(h, h', Victims(h, root))
    requires r in h.trees && r != root && r in h'.trees && h'.trees[r] == h.trees[r]
    ensures MapOf(h', r) == MapOf(h, r)
  {
    assert TreeAt(h, r) && TreeAt(h', r);
    forall k | k in h.trees[r]
      ensures h.trees[r][k] in h'.mem && h'.mem[h.trees[r][k]] == h.mem[h.trees[r][k]]
    {
      var p := h.trees[r][k];
      assert PageReaped(h, h', p, p in Victims(h, root));
      assert h'.owner[p] == Table(r, k);
    }
    TreeFrame(h.mem, h'.mem, h.trees[r]);
  }
}
