/** destroy_pagetable (kernel/mm/vm.c), which recurses through the tables without knowing their level. */
module Destroy {
  import opened Prelude
  import opened Riscv
  import opened PageTree
  import opened Heap
  import opened AddressSpace
  import opened PhysMem

  // ----- where each page hangs in the tree

  /**
   A page below the tree: height 0 is a page some vpn is mapped to, height l + 1 a table of level l
   that begins with vpn.
  */
  datatype Place = Nowhere | At(height: nat, vpn: int)

  /** The tree at root when destroy_pagetable starts; leaves says which vpn leads to a data page. */
  datatype Plan = Plan(heap: Heap, root: int, leaves: map<int, int>)

  function FirstVpn(k: Key): (r: int) {
    match k.level
    case 0 => k.prefix * 512
    case 1 => k.prefix * 0x4_0000
    case _ => 0
  }

  function PlaceOf(d: Plan, p: int): (r: Place) {
    if p in d.heap.owner && d.heap.owner[p].Table? && d.heap.owner[p].root == d.root then
      At(d.heap.owner[p].key.level + 1, FirstVpn(d.heap.owner[p].key))
    else if p in d.leaves then At(0, d.leaves[p])
    else Nowhere
  }

  /** Page p is the table k or hangs below it. */
  predicate Below(d: Plan, k: Key, p: int)
    requires k.level <= 2
  {
    var at := PlaceOf(d, p);
    at.At? && 0 <= at.vpn < VPNS && at.height <= k.level + 1 && PathKey(at.vpn, k.level) == k
  }

  /** Page p hangs below one of the first i entries of table k. */
  predicate BelowFirst(d: Plan, k: Key, i: nat, p: int)
    requires k.level <= 2
  {
    var at := PlaceOf(d, p);
    at.At? && 0 <= at.vpn < VPNS && at.height <= k.level && PathKey(at.vpn, k.level) == k && Index(at.vpn, k.level) < i
  }

  lemma PathThroughChild(vpn: int, k: Key, i: nat)
    requires 0 <= vpn < VPNS && 0 < k.level <= 2 && KeyFits(k) && i < 512
    ensures PathKey(vpn, k.level - 1) == Child(k, i) <==> PathKey(vpn, k.level) == k && Index(vpn, k.level) == i
  {
    PathDown(vpn, k.level);
  }

  lemma BelowChild(d: Plan, k: Key, i: nat, p: int)
    requires 0 < k.level <= 2 && KeyFits(k) && i < 512
    ensures BelowFirst(d, k, i + 1, p) <==> BelowFirst(d, k, i, p) || Below(d, Child(k, i), p)
    ensures Below(d, Child(k, i), p) ==> Below(d, k, p) && !BelowFirst(d, k, i, p)
  {
    var at := PlaceOf(d, p);
    if at.At? && 0 <= at.vpn < VPNS { PathThroughChild(at.vpn, k, i); }
  }

  lemma BelowLeaf(d: Plan, k: Key, i: nat, p: int)
    requires k.level == 0 && KeyFits(k) && i < 512
    ensures BelowFirst(d, k, i + 1, p) <==> BelowFirst(d, k, i, p) || PlaceOf(d, p) == At(0, k.prefix * 512 + i)
    ensures PlaceOf(d, p) == At(0, k.prefix * 512 + i) ==> Below(d, k, p) && !BelowFirst(d, k, i, p)
  {
  }

  // ----- what the caller owes, and what the recursion may rely on

  /**
   Every mapped page is readable, writable or executable; those that belong to the allocator are data
   pages, mapped once.
  */
  ghost predicate PlanOk(d: Plan) {
    && Rooted(d.heap, d.root)
    && (forall v :: v in MapOf(d.heap, d.root) ==> Permits(MapOf(d.heap, d.root)[v]))
    && (forall p :: p in d.leaves ==>
          && p in d.heap.owner && d.heap.owner[p] == Data
          && d.leaves[p] in MapOf(d.heap, d.root) && Pte2Pa(MapOf(d.heap, d.root)[d.leaves[p]]) == p)
    && (forall v :: v in MapOf(d.heap, d.root) && Pte2Pa(MapOf(d.heap, d.root)[v]) in d.heap.pages ==>
          var p := Pte2Pa(MapOf(d.heap, d.root)[v]);
          p in d.leaves && d.leaves[p] == v)
  }

  ghost predicate HasTable(d: Plan, k: Key) {
    d.root in d.heap.trees && k in d.heap.trees[d.root] && k.level <= 2 && KeyFits(k)
  }

  lemma TableFits(d: Plan, k: Key)
    requires PlanOk(d) && k in d.heap.trees[d.root]
    ensures HasTable(d, k)
  {
    assert TreeAt(d.heap, d.root) && NodeOk(d.heap.mem, d.heap.trees[d.root], k);
  }

  /** The tables above a page in the tree exist. */
  lemma {:induction false} TableAbove(d: Plan, l: Key, level: nat)
    requires PlanOk(d) && l in d.heap.trees[d.root] && l.level <= level <= 2
    ensures PathKey(FirstVpn(l), level) in d.heap.trees[d.root]
    decreases level - l.level
  {
    TableFits(d, l);
    assert TreeAt(d.heap, d.root) && NodeOk(d.heap.mem, d.heap.trees[d.root], l);
    if l.level == level {
      assert PathKey(FirstVpn(l), level) == l;
    } else {
      TableAbove(d, Parent(l), level);
      SamePath(l, level);
    }
  }

  lemma SamePath(l: Key, level: nat)
    requires KeyFits(l) && l.level < level <= 2
    ensures 0 <= FirstVpn(l) < VPNS && 0 <= FirstVpn(Parent(l)) < VPNS
    ensures PathKey(FirstVpn(l), level) == PathKey(FirstVpn(Parent(l)), level)
  {
  }

  /** Whatever hangs in the tree hangs below an existing table of every higher level. */
  lemma PlaceAbove(d: Plan, p: int, level: nat)
    requires PlanOk(d) && level <= 2 && PlaceOf(d, p).At? && PlaceOf(d, p).height <= level + 1
    ensures 0 <= PlaceOf(d, p).vpn < VPNS && PathKey(PlaceOf(d, p).vpn, level) in d.heap.trees[d.root]
  {
    var at := PlaceOf(d, p);
    if at.height == 0 {
      var l := PathKey(at.vpn, 0);
      assert at.vpn in MapOf(d.heap, d.root);
      TableAbove(d, l, level);
      LowestTable(at.vpn, level);
    } else {
      var l := d.heap.owner[p].key;
      assert TableAt(d.heap, p);
      TableFits(d, l);
      TableAbove(d, l, level);
      FirstFits(l);
    }
  }

  lemma FirstFits(l: Key)
    requires KeyFits(l)
    ensures 0 <= FirstVpn(l) < VPNS && PathKey(FirstVpn(l), l.level) == l
  {
  }

  lemma LowestTable(v: int, level: nat)
    requires 0 <= v < VPNS && level <= 2
    ensures 0 <= FirstVpn(PathKey(v, 0)) < VPNS && PathKey(FirstVpn(PathKey(v, 0)), level) == PathKey(v, level)
  {
    var q := v / 512;
    assert v / 0x4_0000 == q / 512 && q * 512 / 0x4_0000 == q / 512 && q * 512 / 512 == q;
  }

  lemma MissingChild(d: Plan, k: Key, i: nat, p: int)
    requires PlanOk(d) && HasTable(d, k) && k.level > 0 && i < 512 && Child(k, i) !in d.heap.trees[d.root]
    ensures !Below(d, Child(k, i), p)
  {
    if Below(d, Child(k, i), p) { PlaceAbove(d, p, k.level - 1); }
  }

  /** Below a table hang its own page and what its 512 entries lead to. */
  lemma OwnTable(d: Plan, k: Key, p: int)
    requires PlanOk(d) && HasTable(d, k)
    ensures Below(d, k, p) <==> BelowFirst(d, k, 512, p) || p == d.heap.trees[d.root][k]
    ensures p == d.heap.trees[d.root][k] ==> !BelowFirst(d, k, 512, p)
  {
    assert TreeAt(d.heap, d.root);
    FirstFits(k);
    if Below(d, k, p) && !BelowFirst(d, k, 512, p) {
      var l := d.heap.owner[p].key;
      assert TableAt(d.heap, p);
      TableFits(d, l);
      FirstFits(l);
    }
  }

  /** What the entries of an upper table say. */
  lemma UpperEntry(d: Plan, k: Key, i: nat)
    requires PlanOk(d) && HasTable(d, k) && i < 512 && k.level > 0
    ensures var a := d.heap.trees[d.root][k];
      && PageIn(d.heap.mem, a)
      && var w := d.heap.mem[a][i];
         && (Riscv.Valid(w) <==> Child(k, i) in d.heap.trees[d.root])
         && (Riscv.Valid(w) ==>
               && !Permits(w) && HasTable(d, Child(k, i))
               && Pte2Pa(w) == d.heap.trees[d.root][Child(k, i)])
  {
    var s := d.heap.trees[d.root];
    assert TreeAt(d.heap, d.root) && NodeOk(d.heap.mem, s, k) && LinkOk(d.heap.mem, s, k, i);
    if Child(k, i) in s {
      TableFits(d, Child(k, i));
      assert NodeOk(d.heap.mem, s, Child(k, i));
      PointerIsNoLeaf(s[Child(k, i)]);
    }
  }

  /** What the entries of a last-level table say. */
  lemma LowerEntry(d: Plan, k: Key, i: nat, v: int)
    requires PlanOk(d) && HasTable(d, k) && i < 512 && k.level == 0 && v == k.prefix * 512 + i
    ensures var a, m := d.heap.trees[d.root][k], MapOf(d.heap, d.root);
      && PageIn(d.heap.mem, a)
      && var w := d.heap.mem[a][i];
         (Riscv.Valid(w) <==> v in m) && (Riscv.Valid(w) ==> Permits(w) && w == m[v])
  {
    assert TreeAt(d.heap, d.root) && NodeOk(d.heap.mem, d.heap.trees[d.root], k);
    assert PathKey(v, 0) == k;
  }

  // ----- effects

  /** Page p is as the plan found it, and may be freed. */
  predicate IntactAt(d: Plan, h: Heap, p: int) {
    p in h.owner && h.owner[p] == Data && p in h.mem && p in d.heap.mem && h.mem[p] == d.heap.mem[p]
  }

  ghost predicate Intact(d: Plan, k: Key, h: Heap)
    requires k.level <= 2
  {
    forall p :: p in d.heap.owner && Below(d, k, p) ==> IntactAt(d, h, p)
  }

  /** From g to h page p has been freed, or nothing has happened to it. */
  predicate PageReaped(g: Heap, h: Heap, p: int, freed: bool) {
    && p in g.owner && p in h.owner && p in g.mem && p in h.mem
    && if freed then h.owner[p] == Owner.Free else h.owner[p] == g.owner[p] && h.mem[p] == g.mem[p]
  }

  /** From g to h exactly the pages below table k have been freed. */
  ghost predicate Reaped(d: Plan, k: Key, g: Heap, h: Heap)
    requires k.level <= 2
  {
    forall p :: p in g.owner ==> PageReaped(g, h, p, Below(d, k, p))
  }

  ghost predicate ReapedFirst(d: Plan, k: Key, i: nat, g: Heap, h: Heap)
    requires k.level <= 2
  {
    forall p :: p in g.owner ==> PageReaped(g, h, p, BelowFirst(d, k, i, p))
  }

  /** The page vpn v is mapped to, if any, belongs to the allocator. */
  ghost predicate TargetOk(d: Plan, v: int)
    requires d.root in d.heap.trees
  {
    v in MapOf(d.heap, d.root) ==> Pte2Pa(MapOf(d.heap, d.root)[v]) in d.heap.pages
  }

  ghost predicate TargetsOk(d: Plan, k: Key)
    requires d.root in d.heap.trees && k.level <= 2
  {
    forall v :: 0 <= v < VPNS && PathKey(v, k.level) == k ==> TargetOk(d, v)
  }

  ghost predicate TargetsOkFirst(d: Plan, k: Key, i: nat)
    requires d.root in d.heap.trees && k.level <= 2
  {
    forall v :: 0 <= v < VPNS && PathKey(v, k.level) == k && Index(v, k.level) < i ==> TargetOk(d, v)
  }

  /** When the loop over the entries of table k comes to entry i, having started on heap g. */
  ghost predicate Sweeping(d: Plan, k: Key, i: nat, g: Heap, h: Heap) {
    && HasTable(d, k) && g.owner.Keys == d.heap.owner.Keys == h.owner.Keys
    && Intact(d, k, g) && ReapedFirst(d, k, i, g, h) && TargetsOkFirst(d, k, i)
  }

  lemma SweepStarts(d: Plan, k: Key, g: Heap)
    requires HasTable(d, k) && g.owner.Keys == d.heap.owner.Keys == g.mem.Keys && Intact(d, k, g)
    ensures Sweeping(d, k, 0, g, g)
  {
  }

  // an entry that leads to a table

  lemma ChildIntact(d: Plan, k: Key, i: nat, g: Heap, h: Heap)
    requires Sweeping(d, k, i, g, h) && k.level > 0 && i < 512
    ensures Intact(d, Child(k, i), h)
  {
    forall p | p in d.heap.owner && Below(d, Child(k, i), p) ensures IntactAt(d, h, p) {
      BelowChild(d, k, i, p);
      assert IntactAt(d, g, p) && PageReaped(g, h, p, BelowFirst(d, k, i, p));
    }
  }

  lemma ChildTargets(d: Plan, k: Key, i: nat)
    requires HasTable(d, k) && k.level > 0 && i < 512
    ensures TargetsOk(d, k) ==> TargetsOk(d, Child(k, i))
    ensures TargetsOkFirst(d, k, i) && TargetsOk(d, Child(k, i)) ==> TargetsOkFirst(d, k, i + 1)
  {
    forall v | 0 <= v < VPNS
      ensures PathKey(v, k.level - 1) == Child(k, i) <==> PathKey(v, k.level) == k && Index(v, k.level) == i
    {
      PathThroughChild(v, k, i);
    }
  }

  lemma ChildSwept(d: Plan, k: Key, i: nat, g: Heap, h: Heap, h': Heap)
    requires Sweeping(d, k, i, g, h) && k.level > 0 && i < 512 && h'.owner.Keys == h.owner.Keys
    requires Reaped(d, Child(k, i), h, h') && TargetsOk(d, Child(k, i))
    ensures Sweeping(d, k, i + 1, g, h')
  {
    ChildTargets(d, k, i);
    forall p | p in g.owner ensures PageReaped(g, h', p, BelowFirst(d, k, i + 1, p)) {
      BelowChild(d, k, i, p);
      assert PageReaped(g, h, p, BelowFirst(d, k, i, p)) && PageReaped(h, h', p, Below(d, Child(k, i), p));
    }
  }

  // an entry that leads nowhere

  lemma NoTargets(d: Plan, k: Key, i: nat)
    requires PlanOk(d) && HasTable(d, k) && k.level > 0 && i < 512 && Child(k, i) !in d.heap.trees[d.root]
    ensures TargetsOk(d, Child(k, i))
  {
    forall v | 0 <= v < VPNS && PathKey(v, k.level - 1) == Child(k, i) ensures v !in MapOf(d.heap, d.root) {
      PathsUp(d.heap, d.root, v, k.level - 1);
      NoTableNoEntry(d.heap, d.root, v);
    }
  }

  lemma NothingSwept(d: Plan, k: Key, i: nat, g: Heap, h: Heap)
    requires PlanOk(d) && Sweeping(d, k, i, g, h) && k.level > 0 && i < 512 && Child(k, i) !in d.heap.trees[d.root]
    requires h.mem.Keys == h.owner.Keys
    ensures Sweeping(d, k, i + 1, g, h)
  {
    NoTargets(d, k, i);
    forall p | p in h.owner ensures PageReaped(h, h, p, Below(d, Child(k, i), p)) { MissingChild(d, k, i, p); }
    ChildSwept(d, k, i, g, h, h);
  }

  // an entry of a last-level table

  lemma LeafTargets(d: Plan, k: Key, i: nat)
    requires HasTable(d, k) && k.level == 0 && i < 512 && TargetsOkFirst(d, k, i) && TargetOk(d, k.prefix * 512 + i)
    ensures TargetsOkFirst(d, k, i + 1)
  {
  }

  lemma LeafTarget(d: Plan, k: Key, i: nat, v: int)
    requires HasTable(d, k) && k.level == 0 && i < 512 && v == k.prefix * 512 + i
    ensures TargetsOk(d, k) ==> TargetOk(d, v)
  {
    assert PathKey(v, 0) == k;
  }

  lemma PlacedLeaf(d: Plan, p: int, v: int)
    requires PlanOk(d) && PlaceOf(d, p) == At(0, v)
    ensures v in MapOf(d.heap, d.root) && Pte2Pa(MapOf(d.heap, d.root)[v]) == p && p in d.leaves
  {
  }

  lemma LeafReaped(d: Plan, k: Key, i: nat, v: int, g: Heap, h: Heap, h': Heap, p: int)
    requires k.level == 0 && KeyFits(k) && i < 512 && v == k.prefix * 512 + i
    requires PageReaped(g, h, p, BelowFirst(d, k, i, p)) && PageReaped(h, h', p, PlaceOf(d, p) == At(0, v))
    ensures PageReaped(g, h', p, BelowFirst(d, k, i + 1, p))
  {
    BelowLeaf(d, k, i, p);
  }

  lemma EntrySwept(d: Plan, k: Key, i: nat, v: int, g: Heap, h: Heap, h': Heap)
    requires Sweeping(d, k, i, g, h) && k.level == 0 && i < 512 && v == k.prefix * 512 + i &&
      h'.owner.Keys == h.owner.Keys
    requires TargetOk(d, v)
    requires forall p :: p in h.owner ==> PageReaped(h, h', p, PlaceOf(d, p) == At(0, v))
    ensures Sweeping(d, k, i + 1, g, h')
  {
    LeafTargets(d, k, i);
    forall p | p in g.owner ensures PageReaped(g, h', p, BelowFirst(d, k, i + 1, p)) {
      assert PageReaped(h, h', p, PlaceOf(d, p) == At(0, v));
      assert PageReaped(g, h, p, BelowFirst(d, k, i, p));
      LeafReaped(d, k, i, v, g, h, h', p);
    }
  }

  lemma NoLeafPages(d: Plan, v: int, h: Heap)
    requires PlanOk(d) && v !in MapOf(d.heap, d.root) && h.mem.Keys == h.owner.Keys
    ensures forall p :: p in h.owner ==> PageReaped(h, h, p, PlaceOf(d, p) == At(0, v))
  {
    forall p | p in h.owner ensures PageReaped(h, h, p, PlaceOf(d, p) == At(0, v)) {
      if PlaceOf(d, p) == At(0, v) { PlacedLeaf(d, p, v); }
    }
  }

  lemma OneLeafPage(d: Plan, v: int, h: Heap, p: int)
    requires PlanOk(d) && PlaceOf(d, p) == At(0, v) && h.mem.Keys == h.owner.Keys && p in h.owner
    ensures forall q :: q in h.owner ==> PageReaped(h, Freed(h, p), q, PlaceOf(d, q) == At(0, v))
    ensures Freed(h, p).owner.Keys == h.owner.Keys
  {
    PlacedLeaf(d, p, v);
    forall q | q in h.owner ensures PageReaped(h, Freed(h, p), q, PlaceOf(d, q) == At(0, v)) {
      if PlaceOf(d, q) == At(0, v) { PlacedLeaf(d, q, v); }
    }
  }

  lemma EmptySwept(d: Plan, k: Key, i: nat, v: int, g: Heap, h: Heap)
    requires PlanOk(d) && Sweeping(d, k, i, g, h) && k.level == 0 && i < 512 && h.mem.Keys == h.owner.Keys
    requires v == k.prefix * 512 + i && v !in MapOf(d.heap, d.root)
    ensures Sweeping(d, k, i + 1, g, h)
  {
    NoLeafPages(d, v, h);
    EntrySwept(d, k, i, v, g, h, h);
  }

  lemma LeafPlace(d: Plan, v: int, p: int)
    requires PlanOk(d) && v in MapOf(d.heap, d.root) && p == Pte2Pa(MapOf(d.heap, d.root)[v]) && p in d.heap.pages
    ensures PlaceOf(d, p) == At(0, v) && p in d.heap.owner
  {
  }

  lemma LeafIntact(d: Plan, k: Key, i: nat, v: int, g: Heap, h: Heap, p: int)
    requires Sweeping(d, k, i, g, h) && k.level == 0 && i < 512 && v == k.prefix * 512 + i
    requires PlaceOf(d, p) == At(0, v) && p in d.heap.owner
    ensures p in h.owner && h.owner[p] == Data
  {
    BelowLeaf(d, k, i, p);
    assert IntactAt(d, g, p) && PageReaped(g, h, p, BelowFirst(d, k, i, p));
  }

  // the table itself, at the end

  lemma SelfIntact(d: Plan, k: Key, i: nat, g: Heap, h: Heap)
    requires PlanOk(d) && Sweeping(d, k, i, g, h) && i <= 512
    ensures var a := d.heap.trees[d.root][k]; IntactAt(d, h, a)
  {
    var a := d.heap.trees[d.root][k];
    assert TreeAt(d.heap, d.root);
    OwnTable(d, k, a);
    assert IntactAt(d, g, a) && PageReaped(g, h, a, BelowFirst(d, k, i, a));
  }

  lemma TargetsComplete(d: Plan, k: Key)
    requires HasTable(d, k) && TargetsOkFirst(d, k, 512)
    ensures TargetsOk(d, k)
  {
  }

  lemma SweepEnds(d: Plan, k: Key, g: Heap, h: Heap)
    requires PlanOk(d) && Sweeping(d, k, 512, g, h)
    ensures var a := d.heap.trees[d.root][k]; Reaped(d, k, g, Freed(h, a)) && TargetsOk(d, k)
  {
    var a := d.heap.trees[d.root][k];
    TargetsComplete(d, k);
    SelfIntact(d, k, 512, g, h);
    forall p | p in g.owner ensures PageReaped(g, Freed(h, a), p, Below(d, k, p)) {
      OwnTable(d, k, p);
      assert PageReaped(g, h, p, BelowFirst(d, k, 512, p));
    }
  }

  // ----- the recursion

  /** What holds whenever destroy_pagetable is called, for table k at address a. */
  ghost predicate NodeReady(d: Plan, k: Key, a: int, h: Heap) {
    && PlanOk(d) && HasTable(d, k) && a == d.heap.trees[d.root][k]
    && HeapOk(h) && h.pages == d.heap.pages && Intact(d, k, h)
  }

  lemma NodeStarts(d: Plan, k: Key, a: int, g: Heap)
    requires NodeReady(d, k, a, g)
    ensures Sweeping(d, k, 0, g, g)
  {
    SweepStarts(d, k, g);
  }

  /** Entry i of table k is w. */
  predicate EntryIs(d: Plan, k: Key, i: nat, w: Word) {
    && d.root in d.heap.trees && k in d.heap.trees[d.root]
    && var a := d.heap.trees[d.root][k];
       a in d.heap.mem && i < |d.heap.mem[a]| && d.heap.mem[a][i] == w
  }

  /** The table is read before it is freed. */
  lemma EntryRead(d: Plan, k: Key, i: nat, g: Heap, h: Heap)
    requires PlanOk(d) && Sweeping(d, k, i, g, h) && i < 512
    ensures var a := d.heap.trees[d.root][k];
      a in h.mem && |h.mem[a]| == 512 && h.owner[a] == Data && EntryIs(d, k, i, h.mem[a][i])
  {
    SelfIntact(d, k, i, g, h);
    assert TreeAt(d.heap, d.root) && NodeOk(d.heap.mem, d.heap.trees[d.root], k);
  }

  lemma ChildReady(d: Plan, k: Key, i: nat, g: Heap, h: Heap, w: Word)
    requires PlanOk(d) && Sweeping(d, k, i, g, h) && i < 512 && EntryIs(d, k, i, w) && Riscv.Valid(w) && !Permits(w)
    requires HeapOk(h) && h.pages == d.heap.pages
    ensures k.level > 0 && NodeReady(d, Child(k, i), Pte2Pa(w), h)
  {
    if k.level > 0 { UpperEntry(d, k, i); } else { LowerEntry(d, k, i, k.prefix * 512 + i); }
    ChildIntact(d, k, i, g, h);
  }

  lemma LeafReady(d: Plan, k: Key, i: nat, v: int, g: Heap, h: Heap, w: Word)
    requires PlanOk(d) && Sweeping(d, k, i, g, h) && i < 512 && EntryIs(d, k, i, w) && Riscv.Valid(w) && Permits(w)
    requires v == k.prefix * 512 + i && h.pages == d.heap.pages
    ensures k.level == 0 && v in MapOf(d.heap, d.root) && (TargetOk(d, v) <==> Pte2Pa(w) in h.pages)
    ensures Pte2Pa(w) in h.pages ==>
      PlaceOf(d, Pte2Pa(w)) == At(0, v) && Pte2Pa(w) in h.owner && h.owner[Pte2Pa(w)] == Data
  {
    if k.level > 0 { UpperEntry(d, k, i); } else { LowerEntry(d, k, i, v); }
    if Pte2Pa(w) in h.pages {
      LeafPlace(d, v, Pte2Pa(w));
      LeafIntact(d, k, i, v, g, h, Pte2Pa(w));
    }
  }

  lemma InvalidSwept(d: Plan, k: Key, i: nat, v: int, g: Heap, h: Heap, w: Word)
    requires PlanOk(d) && Sweeping(d, k, i, g, h) && i < 512 && EntryIs(d, k, i, w) && !Riscv.Valid(w)
    requires v == k.prefix * 512 + i && h.mem.Keys == h.owner.Keys
    ensures Sweeping(d, k, i + 1, g, h)
  {
    if k.level > 0 {
      UpperEntry(d, k, i);
      NothingSwept(d, k, i, g, h);
    } else {
      LowerEntry(d, k, i, v);
      EmptySwept(d, k, i, v, g, h);
    }
  }

  /** The entry leads to a table. */
  method DestroyChild(ram: Ram, pte: Word, ghost i: nat, ghost d: Plan, ghost k: Key, ghost g: Heap)
    returns (r: Outcome)
    requires ram.Managed() && ram.Valid() && ram.pages == d.heap.pages && PlanOk(d) &&
      Sweeping(d, k, i, g, ram.View()) && i < 512
    requires EntryIs(d, k, i, pte) && Riscv.Valid(pte) && !Permits(pte)
    modifies ram
    ensures r.Panicked? ==> !TargetsOk(d, k)
    ensures r.Done? ==> ram.Valid() && ram.trees == old(ram.trees) && Sweeping(d, k, i + 1, g, ram.View())
    decreases k.level, 0
  {
    ghost var h := ram.View();
    ChildReady(d, k, i, g, h, pte);
    ChildTargets(d, k, i);
    r := DestroyNode(ram, Pte2Pa(pte), d, Child(k, i));
    if r.Done? { ChildSwept(d, k, i, g, h, ram.View()); }
  }

  /** The entry is a leaf. */
  method DestroyLeaf(ram: Ram, pte: Word, ghost i: nat, ghost v: int, ghost d: Plan, ghost k: Key, ghost g: Heap)
    returns (r: Outcome)
    requires ram.Managed() && ram.Valid() && ram.pages == d.heap.pages && PlanOk(d) &&
      Sweeping(d, k, i, g, ram.View()) && i < 512
    requires EntryIs(d, k, i, pte) && Riscv.Valid(pte) && Permits(pte) && v == k.prefix * 512 + i
    modifies ram
    ensures r.Panicked? ==> !TargetsOk(d, k)
    ensures r.Done? ==> ram.Valid() && ram.trees == old(ram.trees) && Sweeping(d, k, i + 1, g, ram.View())
  {
    ghost var h := ram.View();
    var pa := Pte2Pa(pte);
    LeafReady(d, k, i, v, g, h, pte);
    LeafTarget(d, k, i, v);
    assert Manageable(pa, ram.end) <==> pa in ram.pages;
    r := ram.FreePage(pa);
    if r.Done? {
      OneLeafPage(d, v, h, pa);
      EntrySwept(d, k, i, v, g, h, ram.View());
    }
  }

  /** destroy_pagetable from any table of the tree; the level is the measure, but the code does not know it. */
  method DestroyNode(ram: Ram, a: int, ghost d: Plan, ghost k: Key) returns (r: Outcome)
    requires ram.Managed() && NodeReady(d, k, a, ram.View())
    modifies ram
    ensures r.Done? <==> TargetsOk(d, k)
    ensures r.Done? ==> ram.Valid() && ram.trees == old(ram.trees) && ram.owner.Keys == old(ram.owner).Keys
    ensures r.Done? ==> Reaped(d, k, old(ram.View()), ram.View())
    decreases k.level, 1
  {
    ghost var g := ram.View();
    var i := 0;
    NodeStarts(d, k, a, g);
    while i < 512
      invariant i <= 512 && ram.Valid() && ram.trees == g.trees && Sweeping(d, k, i, g, ram.View())
    {
      EntryRead(d, k, i, g, ram.View());
      var pte := ram.mem[a][i];
      r := Done;
      if Riscv.Valid(pte) && !Permits(pte) {
        r := DestroyChild(ram, pte, i, d, k, g);
      } else if Riscv.Valid(pte) {
        r := DestroyLeaf(ram, pte, i, k.prefix * 512 + i, d, k, g);
      } else {
        InvalidSwept(d, k, i, k.prefix * 512 + i, g, ram.View(), pte);
      }
      if r.Panicked? {
        return;
      }
      i := i + 1;
    }
    r := FreeTable(ram, a, d, k, g);
  }

  /** The last step: the table itself. */
  method FreeTable(ram: Ram, a: int, ghost d: Plan, ghost k: Key, ghost g: Heap) returns (r: Outcome)
    requires ram.Managed() && ram.Valid() && ram.pages == d.heap.pages && PlanOk(d) &&
      Sweeping(d, k, 512, g, ram.View())
    requires a == d.heap.trees[d.root][k]
    modifies ram
    ensures r.Done? && TargetsOk(d, k)
    ensures ram.Valid() && ram.trees == old(ram.trees) && ram.owner.Keys == old(ram.owner).Keys &&
      Reaped(d, k, g, ram.View())
  {
    ghost var h := ram.View();
    SelfIntact(d, k, 512, g, h);
    SweepEnds(d, k, g, h);
    assert PageIn(h.mem, a);
    assert Manageable(a, ram.end) <==> a in ram.pages;
    r := ram.FreePage(a);
  }
}
