/**
 The physical memory the kernel manages, as a value: the pages from PGROUNDUP(end) to PHYSTOP,
 the free list that is threaded through the free ones (kernel/mm/kalloc.c), and who owns the rest.
*/
module Heap {
  import opened Riscv
  import opened PageTree

  /** What a page is used for: on the free list, a table of the tree at `root`, or anything else. */
  datatype Owner = Free | Table(root: int, key: Key) | Data

  datatype Heap = Heap(
    pages: set<int>,        // the pages the allocator manages
    mem: Mem,
    freelist: int,          // kmem.freelist, 0 if null
    free: seq<int>,         // the pages on the list, in order
    owner: map<int, Owner>,
    trees: map<int, Tables> // all page tables, by root address
  )

  /** The aligned pages between PGROUNDUP(end) and PHYSTOP. */
  function AllPages(end: int): (r: set<int>)
    requires KERNBASE <= end <= PHYSTOP
  {
    set a | PgRoundUp(end) <= a < PHYSTOP && Aligned(a)
  }

  /** r->next of the i-th page on the list. */
  predicate NextAt(mem: Mem, free: seq<int>, i: nat)
    requires i < |free|
  {
    free[i] in mem && |mem[free[i]]| == 512 && mem[free[i]][0] == if i + 1 < |free| then free[i + 1] else 0
  }

  /** The list starting at head runs through the pages of free and ends with null. */
  predicate Chain(mem: Mem, head: int, free: seq<int>) {
    && head == (if free == [] then 0 else free[0])
    && forall i :: 0 <= i < |free| ==> NextAt(mem, free, i)
  }

  predicate Distinct(s: seq<int>) {
    forall i, j :: 0 <= i < j < |s| ==> s[i] != s[j]
  }

  ghost predicate PagesOk(h: Heap) {
    && h.mem.Keys == h.pages && h.owner.Keys == h.pages
    && (forall a :: a in h.mem ==> PageIn(h.mem, a))
  }

  ghost predicate FreeOk(h: Heap) {
    && Chain(h.mem, h.freelist, h.free) && Distinct(h.free)
    && (forall a :: a in h.free ==> a in h.owner && h.owner[a] == Free)
    && (forall a :: a in h.owner && h.owner[a] == Free ==> a in h.free)
  }

  /** The tree at root r is a tree of pages it owns. */
  ghost predicate TreeAt(h: Heap, r: int)
    requires r in h.trees
  {
    && Tree(h.mem, h.trees[r]) && h.trees[r][ROOT] == r
    && (forall k :: k in h.trees[r] ==> h.trees[r][k] in h.owner && h.owner[h.trees[r][k]] == Table(r, k))
  }

  ghost predicate TableAt(h: Heap, a: int)
    requires a in h.owner
  {
    h.owner[a].Table? ==>
      var r, k := h.owner[a].root, h.owner[a].key;
      r in h.trees && k in h.trees[r] && h.trees[r][k] == a
  }

  ghost predicate HeapOk(h: Heap) {
    && PagesOk(h) && FreeOk(h)
    && (forall r :: r in h.trees ==> TreeAt(h, r))
    && (forall a :: a in h.owner ==> TableAt(h, a))
  }

  /** memset(page, c, PGSIZE) for a byte c. */
  function Filled(byte: int): (r: seq<Word>)
    requires 0 <= byte < 256
  {
    seq(512, _ => byte * 0x0101_0101_0101_0101)
  }

  function Linked(next: Word): (r: seq<Word>) {
    [next] + seq(511, _ => 0x0101_0101_0101_0101)
  }

  // ----- free_page and alloc_page

  /** free_page(a) */
  function Freed(h: Heap, a: int): (r: Heap) {
    h.(mem := h.mem[a := Linked(if 0 <= h.freelist < TWO64 then h.freelist else 0)],
       freelist := a, free := [a] + h.free, owner := h.owner[a := Owner.Free])
  }

  /** alloc_page() when the list is not empty */
  function Allocated(h: Heap): (r: Heap)
    requires h.free != []
  {
    h.(mem := h.mem[h.free[0] := Filled(5)],
       freelist := if |h.free| > 1 then h.free[1] else 0, free := h.free[1..], owner := h.owner[h.free[0] := Data])
  }

  lemma TreeElsewhere(h: Heap, h': Heap, r: int)
    requires r in h.trees && r in h'.trees && h'.trees[r] == h.trees[r] && TreeAt(h, r)
    requires forall k :: k in h.trees[r] ==>
      var a := h.trees[r][k];
      a in h'.mem && h'.mem[a] == h.mem[a] && a in h'.owner && h'.owner[a] == h.owner[a]
    ensures TreeAt(h', r) && Mapping(h'.mem, h'.trees[r]) == Mapping(h.mem, h.trees[r])
  {
    TreeFrame(h.mem, h'.mem, h.trees[r]);
  }

  lemma FreedOk(h: Heap, a: int)
    requires HeapOk(h) && a in h.owner && h.owner[a] == Data
    ensures HeapOk(Freed(h, a))
    ensures forall r :: r in h.trees ==> Mapping(Freed(h, a).mem, h.trees[r]) == Mapping(h.mem, h.trees[r])
  {
    var h' := Freed(h, a);
    assert 0 <= h.freelist < TWO64 by {
      if h.free != [] { assert h.free[0] in h.free && PageIn(h.mem, h.free[0]); }
    }
    assert a !in h.free;
    forall r | r in h.trees ensures TreeAt(h', r) && Mapping(h'.mem, h.trees[r]) == Mapping(h.mem, h.trees[r]) {
      assert TreeAt(h, r);
      TreeElsewhere(h, h', r);
    }
    forall b | b in h'.mem ensures PageIn(h'.mem, b) { assert b != a ==> PageIn(h.mem, b); assert PageIn(h.mem, a); }
    forall b | b in h'.owner ensures TableAt(h', b) { assert TableAt(h, b); }
    forall i | 0 <= i < |h'.free| ensures NextAt(h'.mem, h'.free, i) {
      if i > 0 { assert NextAt(h.mem, h.free, i - 1) && h'.free[i] == h.free[i - 1]; }
    }
  }

  /** Memory is in order after free_page exactly if the page was in use, and not as a table. */
  lemma FreedIff(h: Heap, a: int)
    requires HeapOk(h) && a in h.pages
    ensures HeapOk(Freed(h, a)) <==> h.owner[a] == Data
  {
    var h' := Freed(h, a);
    match h.owner[a]
    case Data => FreedOk(h, a);
    case Free =>
      var i :| 0 <= i < |h.free| && h.free[i] == a;
      assert h'.free[0] == h'.free[i + 1];
    case Table(r, k) =>
      assert TableAt(h, a);
      assert HeapOk(h') ==> TreeAt(h', r);
  }

  // ----- a double free

  /** Page p is one of those that a double free of h.free[i] ties into a circle. */
  predicate Looping(h: Heap, i: nat, p: int)
    requires i < |h.free|
  {
    exists j :: 0 <= j <= i && h.free[j] == p
  }

  lemma LoopNext(h: Heap, i: nat, p: int)
    requires HeapOk(h) && i < |h.free| && Looping(h, i, p)
    ensures var m := Freed(h, h.free[i]).mem;
      p in m && |m[p]| == 512 && m[p][0] != 0 && Looping(h, i, m[p][0])
  {
    var m := Freed(h, h.free[i]).mem;
    var j :| 0 <= j <= i && h.free[j] == p;
    assert NextAt(h.mem, h.free, j) && h.free[j] in h.free && PageIn(h.mem, h.free[j]);
    assert h.free[0] in h.free && PageIn(h.mem, h.free[0]);
    if j < i {
      assert h.free[j + 1] in h.free && PageIn(h.mem, h.free[j + 1]);
      assert m[p] == h.mem[p] && m[p][0] == h.free[j + 1];
    } else {
      assert m[p] == Linked(h.freelist) && m[p][0] == h.free[0];
    }
  }

  lemma {:induction false} LoopStays(h: Heap, i: nat, f: seq<int>, n: nat)
    requires HeapOk(h) && i < |h.free| && Chain(Freed(h, h.free[i]).mem, h.free[i], f) && n < |f|
    ensures Looping(h, i, f[n])
  {
    if n == 0 {
      assert h.free[i] in h.free && PageIn(h.mem, h.free[i]);
    } else {
      LoopStays(h, i, f, n - 1);
      LoopNext(h, i, f[n - 1]);
      assert NextAt(Freed(h, h.free[i]).mem, f, n - 1);
    }
  }

  /** After a double free the list never ends: it runs from the page to itself for ever. */
  lemma DoubleFree(h: Heap, a: int, f: seq<int>)
    requires HeapOk(h) && a in h.free
    ensures !Chain(Freed(h, a).mem, Freed(h, a).freelist, f)
  {
    var i :| 0 <= i < |h.free| && h.free[i] == a;
    assert PageIn(h.mem, a);
    if Chain(Freed(h, a).mem, a, f) {
      LoopStays(h, i, f, |f| - 1);
      assert NextAt(Freed(h, a).mem, f, |f| - 1);
      LoopNext(h, i, f[|f| - 1]);
    }
  }

  lemma AllocatedFree(h: Heap)
    requires PagesOk(h) && FreeOk(h) && h.free != []
    ensures FreeOk(Allocated(h))
    ensures h.freelist == h.free[0] && h.mem[h.freelist][0] == Allocated(h).freelist
  {
    var h', a := Allocated(h), h.free[0];
    assert a in h.free;
    assert NextAt(h.mem, h.free, 0);
    forall i | 0 <= i < |h'.free| ensures NextAt(h'.mem, h'.free, i) {
      assert NextAt(h.mem, h.free, i + 1) && h'.free[i] == h.free[i + 1] && h'.free[i] != a;
    }
    assert Chain(h'.mem, h'.freelist, h'.free);
    forall b | b in h'.owner && h'.owner[b] == Owner.Free ensures b in h'.free {
      assert b in h.free;
    }
  }

  lemma AllocatedOk(h: Heap)
    requires HeapOk(h) && h.free != []
    ensures HeapOk(Allocated(h))
    ensures h.freelist == h.free[0] && h.mem[h.freelist][0] == Allocated(h).freelist
    ensures forall r :: r in h.trees ==> Mapping(Allocated(h).mem, h.trees[r]) == Mapping(h.mem, h.trees[r])
  {
    var h', a := Allocated(h), h.free[0];
    assert a in h.free;
    forall r | r in h.trees ensures TreeAt(h', r) && Mapping(h'.mem, h.trees[r]) == Mapping(h.mem, h.trees[r]) {
      assert TreeAt(h, r);
      TreeElsewhere(h, h', r);
    }
    forall b | b in h'.mem ensures PageIn(h'.mem, b) { assert b != a ==> PageIn(h.mem, b); assert PageIn(h.mem, a); }
    forall b | b in h'.owner ensures TableAt(h', b) { assert TableAt(h, b); }
    AllocatedFree(h);
  }

  // ----- page tables

  /** What happens to one page table leaves the others, and the pages of others, alone. */
  ghost predicate OthersSame(h: Heap, h': Heap, root: int) {
    && h'.pages == h.pages
    && (forall r :: r in h.trees && r != root ==>
          r in h'.trees && h'.trees[r] == h.trees[r] && Mapping(h'.mem, h'.trees[r]) == Mapping(h.mem, h.trees[r]))
    && (forall r :: r in h'.trees && r != root ==> r in h.trees)
    && (forall a :: a in h.owner && h.owner[a] == Data ==>
          && a in h'.owner && h'.owner[a] == Data
          && a in h'.mem && a in h.mem && h'.mem[a] == h.mem[a])
    && (forall a :: a in h'.owner && h'.owner[a] == Data ==> a in h.owner && h.owner[a] == Data)
  }

  /** create_pagetable() when the list is not empty */
  function Created(h: Heap): (r: Heap)
    requires h.free != []
  {
    var a := h.free[0];
    var h1 := Allocated(h);
    h1.(mem := h1.mem[a := Zeros()], owner := h1.owner[a := Table(a, ROOT)], trees := h1.trees[a := map[ROOT := a]])
  }

  /** A change that concerns free pages and the tree at root only. */
  ghost predicate OnlyTree(h: Heap, h': Heap, root: int) {
    && h'.pages == h.pages && h'.mem.Keys == h.mem.Keys && h'.owner.Keys == h.owner.Keys
    && (forall b :: b in h.owner && h.owner[b] != Owner.Free && !(h.owner[b].Table? && h.owner[b].root == root) ==>
          h'.owner[b] == h.owner[b] && b in h.mem && b in h'.mem && h'.mem[b] == h.mem[b])
    && (forall b :: b in h.owner && h'.owner[b] != h.owner[b] ==>
        h'.owner[b].Free? || (h'.owner[b].Table? && h'.owner[b].root == root))
    && (forall r :: r != root ==> (r in h.trees <==> r in h'.trees))
    && (forall r :: r != root && r in h.trees ==> h'.trees[r] == h.trees[r])
  }

  /** The trees at other roots, their translations and the pages of others. */
  lemma OnlyTreeOthers(h: Heap, h': Heap, root: int)
    requires OnlyTree(h, h', root) && forall r :: r in h.trees ==> TreeAt(h, r)
    ensures OthersSame(h, h', root)
    ensures forall r :: r in h.trees && r != root ==> TreeAt(h', r)
  {
    forall r | r in h.trees && r != root
      ensures TreeAt(h', r) && Mapping(h'.mem, h'.trees[r]) == Mapping(h.mem, h.trees[r])
    {
      assert TreeAt(h, r);
      TreeElsewhere(h, h', r);
    }
  }

  lemma OnlyTreeOk(h: Heap, h': Heap, root: int)
    requires HeapOk(h) && OnlyTree(h, h', root) && FreeOk(h')
    requires forall b :: b in h'.mem ==> PageIn(h'.mem, b)
    requires root in h'.trees ==> TreeAt(h', root)
    requires forall b :: b in h'.owner && h'.owner[b].Table? && h'.owner[b].root == root ==> TableAt(h', b)
    ensures HeapOk(h') && OthersSame(h, h', root)
  {
    OnlyTreeOthers(h, h', root);
    forall b | b in h'.owner ensures TableAt(h', b) { assert TableAt(h, b); }
  }

  lemma CreatedPages(h: Heap)
    requires HeapOk(h) && h.free != []
    ensures var h' := Created(h);
      FreeOk(h') && h.free[0] in h.free && forall b :: b in h'.mem ==> PageIn(h'.mem, b)
  {
    var h', a := Created(h), h.free[0];
    assert a in h.free && PageIn(h.mem, a);
    AllocatedFree(h);
    forall b | b in h'.mem ensures PageIn(h'.mem, b) { assert PageIn(h.mem, b); }
    SameFree(Allocated(h), h', a);
  }

  lemma CreatedRoot(h: Heap)
    requires HeapOk(h) && h.free != []
    ensures h.free[0] !in h.trees && h.free[0] in h.owner && h.owner[h.free[0]] == Owner.Free
    ensures forall b :: b in h.owner && h.owner[b].Table? ==> h.owner[b].root != h.free[0]
  {
    var a := h.free[0];
    assert a in h.free;
    assert a in h.trees ==> TreeAt(h, a);
    forall b | b in h.owner && h.owner[b].Table? ensures h.owner[b].root != a { assert TableAt(h, b); }
  }

  lemma CreatedOnlyTree(h: Heap)
    requires PagesOk(h) && h.free != [] && h.free[0] !in h.trees && h.free[0] in h.owner &&
      h.owner[h.free[0]] == Owner.Free
    ensures OnlyTree(h, Created(h), h.free[0])
  {
  }

  lemma CreatedOk(h: Heap)
    requires HeapOk(h) && h.free != []
    ensures HeapOk(Created(h)) && h.free[0] !in h.trees && OthersSame(h, Created(h), h.free[0])
    ensures Mapping(Created(h).mem, Created(h).trees[h.free[0]]) == map[]
  {
    var h', a := Created(h), h.free[0];
    CreatedPages(h);
    CreatedRoot(h);
    CreatedOnlyTree(h);
    EmptyTree(h'.mem, a);
    assert TreeAt(h', a);
    OnlyTreeOk(h, h', a);
  }

  /** Pages off the list may be written to and change hands. */
  lemma SameFree(h: Heap, h': Heap, a: int)
    requires FreeOk(h) && h'.free == h.free && h'.freelist == h.freelist && h'.owner.Keys == h.owner.Keys
    requires a in h.owner && h.owner[a] != Owner.Free && h'.owner[a] != Owner.Free
    requires forall b :: b in h.owner && b != a ==> h'.owner[b] == h.owner[b]
    requires forall b :: b in h.free ==> b in h.mem && b in h'.mem && h'.mem[b] == h.mem[b]
    ensures FreeOk(h')
  {
    forall i | 0 <= i < |h'.free| ensures NextAt(h'.mem, h'.free, i) {
      assert NextAt(h.mem, h.free, i) && h.free[i] in h.free;
    }
  }

  ghost predicate CanGrow(h: Heap, root: int, vpn: int, level: nat) {
    && HeapOk(h) && root in h.trees && 0 <= vpn < VPNS && 0 < level <= 2
    && PathKey(vpn, level) in h.trees[root] && PathKey(vpn, level - 1) !in h.trees[root] && h.free != []
  }

  lemma GrowReady(h: Heap, root: int, vpn: int, level: nat)
    requires CanGrow(h, root, vpn, level)
    ensures PageIn(h.mem, h.free[0]) && NodeOk(h.mem, h.trees[root], PathKey(vpn, level))
    ensures forall r, k :: r in h.trees && k in h.trees[r] ==> h.trees[r][k] != h.free[0]
    ensures h.trees[root][PathKey(vpn, level)] != h.free[0]
  {
    assert h.free[0] in h.free && TreeAt(h, root);
    forall r, k | r in h.trees && k in h.trees[r] ensures h.trees[r][k] != h.free[0] { assert TreeAt(h, r); }
  }

  /** walk_create hangs a zeroed page below the table at `level` on the path to vpn. */
  ghost function Grow(h: Heap, root: int, vpn: int, level: nat): (r: Heap)
    requires CanGrow(h, root, vpn, level)
  {
    GrowReady(h, root, vpn, level);
    var a := h.free[0];
    var h1 := Allocated(h);
    var (m, t) := Grown(h1.mem[a := Zeros()], h.trees[root], vpn, level, a);
    h1.(mem := m, owner := h1.owner[a := Table(root, PathKey(vpn, level - 1))], trees := h.trees[root := t])
  }

  lemma GrowTree(h: Heap, root: int, vpn: int, level: nat)
    requires CanGrow(h, root, vpn, level)
    ensures var h' := Grow(h, root, vpn, level);
      Tree(h'.mem, h'.trees[root]) && Mapping(h'.mem, h'.trees[root]) == Mapping(h.mem, h.trees[root])
  {
    GrowReady(h, root, vpn, level);
    var a, s := h.free[0], h.trees[root];
    assert TreeAt(h, root);
    var m1 := h.mem[a := Zeros()];
    TreeFrame(h.mem, m1, s);
    GrownTree(m1, s, vpn, level, a);
    assert Allocated(h).mem[a := Zeros()] == m1;
  }

  lemma GrowPages(h: Heap, root: int, vpn: int, level: nat)
    requires CanGrow(h, root, vpn, level)
    ensures var h' := Grow(h, root, vpn, level);
      FreeOk(h') && h'.free == h.free[1..] && forall b :: b in h'.mem ==> PageIn(h'.mem, b)
  {
    GrowReady(h, root, vpn, level);
    var a, h' := h.free[0], Grow(h, root, vpn, level);
    assert TreeAt(h, root) && a in h.free;
    assert h.owner[h.trees[root][PathKey(vpn, level)]] == Table(root, PathKey(vpn, level));
    forall b | b in h'.mem ensures PageIn(h'.mem, b) { assert PageIn(h.mem, b); }
    AllocatedFree(h);
    SameFree(Allocated(h), h', a);
  }

  /** Two pages change: a free one, which joins the tree at root, and one that is part of it. */
  lemma TwoPages(h: Heap, h': Heap, root: int, a: int, up: int)
    requires h'.pages == h.pages && h.mem.Keys == h.owner.Keys && a in h.mem && up in h.mem
    requires h'.mem.Keys == h.mem.Keys && forall b :: b in h.mem && b != a && b != up ==> h'.mem[b] == h.mem[b]
    requires h.owner[a] == Owner.Free && h.owner[up].Table? && h.owner[up].root == root
    requires a in h'.owner && h'.owner == h.owner[a := h'.owner[a]] && h'.owner[a].Table? && h'.owner[a].root == root
    requires root in h'.trees && h'.trees == h.trees[root := h'.trees[root]]
    ensures OnlyTree(h, h', root)
  {
  }

  lemma GrowOnlyTree(h: Heap, root: int, vpn: int, level: nat)
    requires CanGrow(h, root, vpn, level)
    ensures OnlyTree(h, Grow(h, root, vpn, level), root)
  {
    GrowReady(h, root, vpn, level);
    var a, up := h.free[0], h.trees[root][PathKey(vpn, level)];
    assert a in h.free && TreeAt(h, root);
    assert h.owner[up] == Table(root, PathKey(vpn, level));
    TwoPages(h, Grow(h, root, vpn, level), root, a, up);
  }

  lemma GrowOwners(h: Heap, root: int, vpn: int, level: nat)
    requires CanGrow(h, root, vpn, level)
    requires Tree(Grow(h, root, vpn, level).mem, Grow(h, root, vpn, level).trees[root])
    ensures TreeAt(Grow(h, root, vpn, level), root)
    ensures
      forall b ::
        && b in h.owner && Grow(h, root, vpn, level).owner[b].Table?
        && Grow(h, root, vpn, level).owner[b].root == root
        ==> TableAt(Grow(h, root, vpn, level), b)
  {
    GrowReady(h, root, vpn, level);
    assert TreeAt(h, root) && h.free[0] in h.free;
    forall b | b in h.owner ensures TableAt(h, b) { }
  }

  lemma GrowOk(h: Heap, root: int, vpn: int, level: nat)
    requires CanGrow(h, root, vpn, level)
    ensures var h' := Grow(h, root, vpn, level);
      && HeapOk(h') && OthersSame(h, h', root) && h'.free == h.free[1..]
      && Mapping(h'.mem, h'.trees[root]) == Mapping(h.mem, h.trees[root])
  {
    GrowTree(h, root, vpn, level);
    GrowPages(h, root, vpn, level);
    GrowOnlyTree(h, root, vpn, level);
    GrowOwners(h, root, vpn, level);
    OnlyTreeOk(h, Grow(h, root, vpn, level), root);
  }

  // ----- what a page holds when it changes hands

  /** A 64-bit word whose bytes are all b, with n of them written. */
  function Repeated(b: nat, n: nat): (w: nat) {
    if n == 0 then 0 else Repeated(b, n - 1) * 256 + b
  }

  lemma JunkBytes()
    ensures Repeated(5, 8) == 5 * 0x0101_0101_0101_0101 && Repeated(1, 8) == 0x0101_0101_0101_0101
  {
    assert Repeated(5, 4) == 5 * 0x0101_0101 && Repeated(1, 4) == 0x0101_0101;
  }

  lemma LinkedWords(next: Word, i: nat)
    requires i < 512
    ensures |Linked(next)| == 512 && Linked(next)[i] == if i == 0 then next else 0x0101_0101_0101_0101
  {
  }

  /** alloc_page hands out a page of bytes 5; free_page leaves one of bytes 1 behind the link to the next page. */
  lemma PagesFilled(h: Heap, a: int, i: nat)
    requires HeapOk(h) && a in h.pages && i < 512
    ensures h.free != [] ==> Allocated(h).mem[h.free[0]][i] == Repeated(5, 8)
    ensures Freed(h, a).mem[a][0] == h.freelist
    ensures i > 0 ==> Freed(h, a).mem[a][i] == Repeated(1, 8)
  {
    JunkBytes();
    if h.free != [] { assert h.free[0] in h.free && PageIn(h.mem, h.free[0]); }
    assert Freed(h, a).mem[a] == Linked(h.freelist);
    LinkedWords(h.freelist, i);
    LinkedWords(h.freelist, 0);
  }
}
