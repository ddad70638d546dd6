/** walk_create, map_page and unmap_page (kernel/mm/vm.c) as changes of the heap. */
module AddressSpace {
  import opened Riscv
  import opened PageTree
  import opened Heap

  ghost predicate Rooted(h: Heap, root: int) {
    HeapOk(h) && root in h.trees
  }

  ghost function MapOf(h: Heap, root: int): (r: map<int, Word>)
    requires root in h.trees
  {
    Mapping(h.mem, h.trees[root])
  }

  // ----- writing a last-level entry

  ghost function WriteLeaf(h: Heap, root: int, vpn: int, w: Word): (r: Heap)
    requires Rooted(h, root) && 0 <= vpn < VPNS && PathKey(vpn, 0) in h.trees[root]
  {
    assert TreeAt(h, root);
    h.(mem := Poke(h.mem, h.trees[root][PathKey(vpn, 0)], vpn % 512, w))
  }

  lemma WriteLeafTree(h: Heap, root: int, vpn: int, w: Word)
    requires Rooted(h, root) && 0 <= vpn < VPNS && PathKey(vpn, 0) in h.trees[root]
    ensures var h' := WriteLeaf(h, root, vpn, w);
      && TreeAt(h', root)
      && MapOf(h', root) == if Valid(w) then MapOf(h, root)[vpn := w] else MapOf(h, root) - {vpn}
  {
    assert TreeAt(h, root);
    LeafWritten(h.mem, h.trees[root], vpn, w);
  }

  lemma WriteLeafFrame(h: Heap, root: int, vpn: int, w: Word)
    requires Rooted(h, root) && 0 <= vpn < VPNS && PathKey(vpn, 0) in h.trees[root]
    ensures var h' := WriteLeaf(h, root, vpn, w);
      && OnlyTree(h, h', root) && FreeOk(h')
      && (forall b :: b in h'.mem ==> PageIn(h'.mem, b))
      && (forall b :: b in h'.owner ==> TableAt(h', b))
  {
    var h', p := WriteLeaf(h, root, vpn, w), h.trees[root][PathKey(vpn, 0)];
    assert TreeAt(h, root) && h.owner[p] == Table(root, PathKey(vpn, 0));
    forall b | b in h'.mem ensures PageIn(h'.mem, b) { assert PageIn(h.mem, b); }
    forall b | b in h'.owner ensures TableAt(h', b) { assert TableAt(h, b); }
    SameFree(h, h', p);
  }

  lemma WriteLeafOk(h: Heap, root: int, vpn: int, w: Word)
    requires Rooted(h, root) && 0 <= vpn < VPNS && PathKey(vpn, 0) in h.trees[root]
    ensures var h' := WriteLeaf(h, root, vpn, w);
      && HeapOk(h') && OthersSame(h, h', root)
      && MapOf(h', root) == if Valid(w) then MapOf(h, root)[vpn := w] else MapOf(h, root) - {vpn}
  {
    WriteLeafTree(h, root, vpn, w);
    WriteLeafFrame(h, root, vpn, w);
    OnlyTreeOk(h, WriteLeaf(h, root, vpn, w), root);
  }

  // ----- walk_create

  /**
   walk_create from the table at `level` downwards: the heap it leaves behind, and whether it
   reached level 0 before alloc_page ran out of pages.
  */
  ghost function Walked(h: Heap, root: int, vpn: int, level: nat): (r: (Heap, bool))
    requires Rooted(h, root) && 0 <= vpn < VPNS && level <= 2 && PathKey(vpn, level) in h.trees[root]
    decreases level
  {
    if level == 0 then (h, true)
    else if PathKey(vpn, level - 1) in h.trees[root] then Walked(h, root, vpn, level - 1)
    else if h.free == [] then (h, false)
    else
      GrowOk(h, root, vpn, level);
      Walked(Grow(h, root, vpn, level), root, vpn, level - 1)
  }

  /** The tables on the path to vpn, from the given level down. */
  function PathBelow(vpn: int, level: nat): (r: set<Key>)
    requires 0 <= vpn < VPNS && level <= 2
    decreases level
  {
    {PathKey(vpn, level)} + if level == 0 then {} else PathBelow(vpn, level - 1)
  }

  lemma OthersTrans(h: Heap, g: Heap, h': Heap, root: int)
    requires OthersSame(h, g, root) && OthersSame(g, h', root)
    ensures OthersSame(h, h', root)
  {
  }

  /** The tables missing on the path, with and without the one at level - 1. */
  lemma PathSets(keys: set<Key>, vpn: int, level: nat)
    requires 0 <= vpn < VPNS && 0 < level <= 2 && PathKey(vpn, level) in keys
    ensures var k, below := PathKey(vpn, level - 1), PathBelow(vpn, level - 1);
      && PathBelow(vpn, level) - keys == below - keys && keys + PathBelow(vpn, level) == keys + below && k in below
      && (k !in keys ==> below - keys == (below - (keys + {k})) + {k} && keys + below == (keys + {k}) + below)
      && (k !in keys ==> |below - keys| == |below - (keys + {k})| + 1)
  {
    var k, below := PathKey(vpn, level - 1), PathBelow(vpn, level - 1);
    if k !in keys { assert below - keys == (below - (keys + {k})) + {k}; }
  }

  lemma GrowKeys(h: Heap, root: int, vpn: int, level: nat)
    requires CanGrow(h, root, vpn, level)
    ensures Grow(h, root, vpn, level).trees[root].Keys == h.trees[root].Keys + {PathKey(vpn, level - 1)}
  {
  }

  /** What walk_create changes, and how much memory it takes: one page for every missing table. */
  lemma {:induction false} WalkedOk(h: Heap, root: int, vpn: int, level: nat)
    requires Rooted(h, root) && 0 <= vpn < VPNS && level <= 2 && PathKey(vpn, level) in h.trees[root]
    ensures var (h', ok) := Walked(h, root, vpn, level);
      Rooted(h', root) && OthersSame(h, h', root) && MapOf(h', root) == MapOf(h, root)
    decreases level
  {
    if level > 0 {
      if PathKey(vpn, level - 1) in h.trees[root] {
        WalkedOk(h, root, vpn, level - 1);
      } else if h.free != [] {
        GrowOk(h, root, vpn, level);
        var g := Grow(h, root, vpn, level);
        WalkedOk(g, root, vpn, level - 1);
        OthersTrans(h, g, Walked(g, root, vpn, level - 1).0, root);
      }
    }
  }

  /** One page for every table missing on the path; enough pages if and only if the walk succeeds. */
  predicate CostOk(keys: set<Key>, free: seq<int>, vpn: int, level: nat, keys': set<Key>, free': seq<int>, ok: bool)
    requires 0 <= vpn < VPNS && level <= 2
  {
    var missing := PathBelow(vpn, level) - keys;
    && (ok <==> |missing| <= |free|)
    && (ok ==> keys' == keys + PathBelow(vpn, level) && free' == free[|missing|..])
  }

  lemma NothingMissing(keys: set<Key>, free: seq<int>, vpn: int)
    requires 0 <= vpn < VPNS && PathKey(vpn, 0) in keys
    ensures CostOk(keys, free, vpn, 0, keys, free, true)
  {
    assert PathBelow(vpn, 0) - keys == {};
    assert keys + PathBelow(vpn, 0) == keys;
  }

  /** One table is added: the count of missing tables goes down with the free list. */
  lemma CostStep(keys: set<Key>, free: seq<int>, vpn: int, level: nat, keys': set<Key>, free': seq<int>, ok: bool)
    requires 0 <= vpn < VPNS && 0 < level <= 2 && PathKey(vpn, level) in keys && PathKey(vpn, level - 1) !in keys &&
      free != []
    requires CostOk(keys + {PathKey(vpn, level - 1)}, free[1..], vpn, level - 1, keys', free', ok)
    ensures CostOk(keys, free, vpn, level, keys', free', ok)
  {
    PathSets(keys, vpn, level);
    var m := |PathBelow(vpn, level - 1) - (keys + {PathKey(vpn, level - 1)})|;
    if ok { assert free[1..][m..] == free[m + 1..]; }
  }

  lemma {:induction false} WalkedCost(h: Heap, root: int, vpn: int, level: nat)
    requires Rooted(h, root) && 0 <= vpn < VPNS && level <= 2 && PathKey(vpn, level) in h.trees[root]
    ensures var (h', ok) := Walked(h, root, vpn, level);
      root in h'.trees && CostOk(h.trees[root].Keys, h.free, vpn, level, h'.trees[root].Keys, h'.free, ok)
    decreases level
  {
    if level == 0 {
      NothingMissing(h.trees[root].Keys, h.free, vpn);
    } else if PathKey(vpn, level - 1) in h.trees[root] {
      WalkedCost(h, root, vpn, level - 1);
      PathSets(h.trees[root].Keys, vpn, level);
    } else if h.free != [] {
      GrowOk(h, root, vpn, level);
      GrowKeys(h, root, vpn, level);
      var g := Grow(h, root, vpn, level);
      WalkedCost(g, root, vpn, level - 1);
      var (h', ok) := Walked(g, root, vpn, level - 1);
      CostStep(h.trees[root].Keys, h.free, vpn, level, h'.trees[root].Keys, h'.free, ok);
    } else {
      PathSets(h.trees[root].Keys, vpn, level);
    }
  }

  // ----- map_page and unmap_page

  ghost predicate CanMap(h: Heap, root: int, vpn: int)
    requires root in h.trees && 0 <= vpn < VPNS
  {
    vpn !in MapOf(h, root) && |PathBelow(vpn, 2) - h.trees[root].Keys| <= |h.free|
  }

  /** h' is h with vpn mapped to the entry w in the tree at root, and nothing else changed for anyone. */
  ghost predicate MapsOne(h: Heap, h': Heap, root: int, vpn: int, w: Word)
    requires root in h.trees && 0 <= vpn < VPNS
  {
    && Rooted(h', root) && OthersSame(h, h', root)
    && MapOf(h', root) == MapOf(h, root)[vpn := w]
    && CostOk(h.trees[root].Keys, h.free, vpn, 2, h'.trees[root].Keys, h'.free, true)
  }

  lemma RootOnPath(h: Heap, root: int, vpn: int)
    requires Rooted(h, root) && 0 <= vpn < VPNS
    ensures PathKey(vpn, 2) in h.trees[root] && h.trees[root][PathKey(vpn, 2)] == root
  {
    assert TreeAt(h, root);
  }

  lemma PathInSet(vpn: int)
    requires 0 <= vpn < VPNS
    ensures PathKey(vpn, 0) in PathBelow(vpn, 2) && PathKey(vpn, 1) in PathBelow(vpn, 2)
  {
    assert PathKey(vpn, 1) in PathBelow(vpn, 1) && PathKey(vpn, 0) in PathBelow(vpn, 0);
    assert PathBelow(vpn, 2) == {PathKey(vpn, 2)} + PathBelow(vpn, 1);
    assert PathBelow(vpn, 1) == {PathKey(vpn, 1)} + PathBelow(vpn, 0);
  }

  /** The walk reaches level 0 if there are pages enough, and leaves all mappings alone. */
  lemma WalkedReaches(h: Heap, root: int, vpn: int)
    requires Rooted(h, root) && 0 <= vpn < VPNS && PathKey(vpn, 2) in h.trees[root]
    ensures var (g, ok) := Walked(h, root, vpn, 2);
      && (ok <==> |PathBelow(vpn, 2) - h.trees[root].Keys| <= |h.free|)
      && Rooted(g, root) && MapOf(g, root) == MapOf(h, root) && OthersSame(h, g, root)
      && (ok ==> PathKey(vpn, 0) in g.trees[root])
      && CostOk(h.trees[root].Keys, h.free, vpn, 2, g.trees[root].Keys, g.free, ok)
  {
    WalkedOk(h, root, vpn, 2);
    WalkedCost(h, root, vpn, 2);
    PathInSet(vpn);
  }

  lemma MapsOneAfterWalk(h: Heap, g: Heap, root: int, vpn: int, w: Word)
    requires Rooted(h, root) && Rooted(g, root) && 0 <= vpn < VPNS && Valid(w)
    requires OthersSame(h, g, root) && MapOf(g, root) == MapOf(h, root) && PathKey(vpn, 0) in g.trees[root]
    requires CostOk(h.trees[root].Keys, h.free, vpn, 2, g.trees[root].Keys, g.free, true)
    ensures MapsOne(h, WriteLeaf(g, root, vpn, w), root, vpn, w)
  {
    WriteLeafOk(g, root, vpn, w);
    OthersTrans(h, g, WriteLeaf(g, root, vpn, w), root);
  }

  /** The page and word of an entry on the path. */
  lemma PathPage(h: Heap, root: int, vpn: int, level: nat)
    requires Rooted(h, root) && 0 <= vpn < VPNS && level <= 2 && PathKey(vpn, level) in h.trees[root]
    ensures PageIn(h.mem, h.trees[root][PathKey(vpn, level)]) && NodeOk(h.mem, h.trees[root], PathKey(vpn, level))
    ensures var pte := h.mem[h.trees[root][PathKey(vpn, level)]][Index(vpn, level)];
      if level > 0 then
        && (Riscv.Valid(pte) <==> PathKey(vpn, level - 1) in h.trees[root])
        && (Riscv.Valid(pte) ==> Pte2Pa(pte) == h.trees[root][PathKey(vpn, level - 1)])
      else
        && (Riscv.Valid(pte) <==> vpn in MapOf(h, root))
        && (Riscv.Valid(pte) ==> pte == MapOf(h, root)[vpn])
  {
    assert TreeAt(h, root) && NodeOk(h.mem, h.trees[root], PathKey(vpn, level));
    if level > 0 { PathLink(h.mem, h.trees[root], vpn, level); }
  }

  /** Without a last-level table there is no mapping. */
  lemma NoTableNoEntry(h: Heap, root: int, vpn: int)
    requires Rooted(h, root) && 0 <= vpn < VPNS
    ensures vpn in MapOf(h, root) ==> PathKey(vpn, 0) in h.trees[root]
  {
  }

  lemma PathsUp(h: Heap, root: int, vpn: int, level: nat)
    requires Rooted(h, root) && 0 <= vpn < VPNS && level <= 2 && PathKey(vpn, level) !in h.trees[root]
    ensures PathKey(vpn, 0) !in h.trees[root]
  {
    assert TreeAt(h, root);
    PathUp(h.mem, h.trees[root], vpn);
  }
}
