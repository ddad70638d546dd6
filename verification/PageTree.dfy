/**
 Sv39 page tables as they lie in raw memory (kernel/mm/vm.c), and the partial map from virtual
 page numbers to page table entries that they stand for.
*/
module PageTree {
  import opened Prelude
  import opened Riscv

  /** Physical memory: the address of a page and its 512 words. */
  type Mem = map<int, seq<Word>>

  /** Names a table of a tree: the root is (2, 0), entry i of (l, p) leads to (l - 1, 512 p + i). */
  datatype Key = Key(level: nat, prefix: nat)

  const ROOT := Key(2, 0)

  /** The tables of a tree and the pages they live in. */
  type Tables = map<Key, int>

  predicate KeyFits(k: Key) {
    match k.level
    case 0 => k.prefix < 0x4_0000
    case 1 => k.prefix < 512
    case 2 => k.prefix == 0
    case _ => false
  }

  function Child(k: Key, i: nat): (r: Key)
    requires k.level > 0
  {
    Key(k.level - 1, k.prefix * 512 + i)
  }

  function Parent(k: Key): (r: Key) {
    Key(k.level + 1, k.prefix / 512)
  }

  /** The table on the path to vpn at the given level. */
  function PathKey(vpn: int, level: nat): (k: Key)
    requires 0 <= vpn < VPNS && level <= 2
    ensures KeyFits(k)
  {
    Key(level, match level case 0 => vpn / 512 case 1 => vpn / 0x4_0000 case 2 => 0)
  }

  ghost predicate PageIn(mem: Mem, a: int) {
    a in mem && |mem[a]| == 512 && 0 < a < TWO64 && PageAddr(a)
  }

  ghost predicate NodeOk(mem: Mem, s: Tables, k: Key) {
    k in s && KeyFits(k) && PageIn(mem, s[k]) && (k.level < 2 ==> Parent(k) in s)
  }

  ghost predicate LinkOk(mem: Mem, s: Tables, k: Key, i: nat)
    requires NodeOk(mem, s, k) && k.level > 0 && i < 512
  {
    if Child(k, i) in s
    then 0 <= s[Child(k, i)] < TWO64 && mem[s[k]][i] == PointerPte(s[Child(k, i)])
    else !Valid(mem[s[k]][i])
  }

  /** The tables of s form a tree in mem. */
  ghost predicate Tree(mem: Mem, s: Tables) {
    && ROOT in s
    && (forall k :: k in s ==> NodeOk(mem, s, k))
    && (forall k, i :: k in s && k.level > 0 && 0 <= i < 512 ==> NodeOk(mem, s, k) && LinkOk(mem, s, k, i))
    && (forall k, l :: k in s && l in s && s[k] == s[l] ==> k == l)
  }

  function Entry(mem: Mem, s: Tables, vpn: int): (r: Word)
    requires 0 <= vpn < VPNS && NodeOk(mem, s, PathKey(vpn, 0))
  {
    mem[s[PathKey(vpn, 0)]][vpn % 512]
  }

  ghost predicate Mapped(mem: Mem, s: Tables, vpn: int) {
    0 <= vpn < VPNS && NodeOk(mem, s, PathKey(vpn, 0)) && Valid(Entry(mem, s, vpn))
  }

  /** The abstract page table: virtual page number to valid entry. */
  ghost function Mapping(mem: Mem, s: Tables): (r: map<int, Word>) {
    map vpn | 0 <= vpn < VPNS && Mapped(mem, s, vpn) :: Entry(mem, s, vpn)
  }

  // ----- paths

  lemma PathDown(vpn: int, level: nat)
    requires 0 <= vpn < VPNS && 0 < level <= 2
    ensures Child(PathKey(vpn, level), Index(vpn, level)) == PathKey(vpn, level - 1)
    ensures Parent(PathKey(vpn, level - 1)) == PathKey(vpn, level)
  {
  }

  /** A present table has all tables above it. */
  lemma PathUp(mem: Mem, s: Tables, vpn: int)
    requires Tree(mem, s) && 0 <= vpn < VPNS
    ensures PathKey(vpn, 2) in s
    ensures PathKey(vpn, 0) in s ==> PathKey(vpn, 1) in s
  {
    PathDown(vpn, 1);
    if PathKey(vpn, 0) in s { assert NodeOk(mem, s, PathKey(vpn, 0)); }
  }

  /** What the entry on the path says at an upper level. */
  lemma PathLink(mem: Mem, s: Tables, vpn: int, level: nat)
    requires Tree(mem, s) && 0 <= vpn < VPNS && 0 < level <= 2 && PathKey(vpn, level) in s
    ensures PageIn(mem, s[PathKey(vpn, level)])
    ensures var pte := mem[s[PathKey(vpn, level)]][Index(vpn, level)];
      && (Valid(pte) <==> PathKey(vpn, level - 1) in s)
      && (Valid(pte) ==>
            && pte == PointerPte(s[PathKey(vpn, level - 1)]) && !Permits(pte)
            && Pte2Pa(pte) == s[PathKey(vpn, level - 1)])
  {
    var k := PathKey(vpn, level);
    PathDown(vpn, level);
    assert NodeOk(mem, s, k) && LinkOk(mem, s, k, Index(vpn, level));
    if Child(k, Index(vpn, level)) in s {
      assert NodeOk(mem, s, PathKey(vpn, level - 1));
      PointerIsNoLeaf(s[Child(k, Index(vpn, level))]);
    }
  }

  // ----- updates

  /** Memory outside the tables does not matter. */
  lemma TreeFrame(mem: Mem, mem': Mem, s: Tables)
    requires Tree(mem, s)
    requires forall k :: k in s ==> s[k] in mem' && mem'[s[k]] == mem[s[k]]
    ensures Tree(mem', s) && Mapping(mem', s) == Mapping(mem, s)
  {
    forall k | k in s ensures NodeOk(mem', s, k) { assert NodeOk(mem, s, k); }
    forall k, i | k in s && k.level > 0 && 0 <= i < 512 ensures LinkOk(mem', s, k, i) { assert LinkOk(mem, s, k, i); }
    forall vpn | 0 <= vpn < VPNS
      ensures Mapped(mem', s, vpn) == Mapped(mem, s, vpn)
      ensures Mapped(mem, s, vpn) ==> Entry(mem', s, vpn) == Entry(mem, s, vpn)
    {
      if PathKey(vpn, 0) in s { assert NodeOk(mem, s, PathKey(vpn, 0)) && NodeOk(mem', s, PathKey(vpn, 0)); }
    }
  }

  function Zeros(): (r: seq<Word>) {
    seq(512, _ => 0)
  }

  function Poke(mem: Mem, a: int, i: nat, w: Word): (r: Mem)
    requires a in mem && i < |mem[a]|
  {
    var page: seq<Word> := mem[a][i := w];
    mem[a := page]
  }

  lemma ZeroInvalid()
    ensures !Valid(0)
  {
  }

  /** A fresh zeroed page is an empty tree. */
  lemma EmptyTree(mem: Mem, a: int)
    requires PageIn(mem, a) && mem[a] == Zeros()
    ensures Tree(mem, map[ROOT := a]) && Mapping(mem, map[ROOT := a]) == map[]
  {
    ZeroInvalid();
    var s: Tables := map[ROOT := a];
    assert NodeOk(mem, s, ROOT);
    forall k, i | k in s && k.level > 0 && 0 <= i < 512 ensures LinkOk(mem, s, k, i) { }
    assert forall vpn :: 0 <= vpn < VPNS ==> !Mapped(mem, s, vpn);
  }

  lemma ChildParent(k: Key, i: nat)
    requires k.level > 0 && i < 512
    ensures Parent(Child(k, i)) == k && Child(k, i).prefix % 512 == i
  {
  }

  /** Tables and link after walk_create has hung page a below the table at `level`. */
  function Grown(mem: Mem, s: Tables, vpn: int, level: nat, a: Word): (r: (Mem, Tables))
    requires 0 <= vpn < VPNS && 0 < level <= 2 && NodeOk(mem, s, PathKey(vpn, level))
  {
    (Poke(mem, s[PathKey(vpn, level)], Index(vpn, level), PointerPte(a)), s[PathKey(vpn, level - 1) := a])
  }

  lemma GrownNodes(mem: Mem, s: Tables, vpn: int, level: nat, a: Word)
    requires Tree(mem, s) && 0 <= vpn < VPNS && 0 < level <= 2 && NodeOk(mem, s, PathKey(vpn, level))
    requires PathKey(vpn, level - 1) !in s && PageIn(mem, a) && mem[a] == Zeros()
    requires forall k :: k in s ==> s[k] != a
    ensures var r := Grown(mem, s, vpn, level, a);
      forall k :: k in r.1 ==> NodeOk(r.0, r.1, k)
  {
    var (m, t) := Grown(mem, s, vpn, level, a);
    PathDown(vpn, level);
    forall k | k in t ensures NodeOk(m, t, k) {
      if k in s { assert NodeOk(mem, s, k); }
    }
  }

  /** A link stays as it is with its word and the table it leads to. */
  lemma LinkKept(mem: Mem, s: Tables, m: Mem, t: Tables, k: Key, i: nat)
    requires NodeOk(mem, s, k) && NodeOk(m, t, k) && k.level > 0 && i < 512 && LinkOk(mem, s, k, i)
    requires t[k] == s[k] && m[s[k]][i] == mem[s[k]][i]
    requires Child(k, i) in t <==> Child(k, i) in s
    requires Child(k, i) in s ==> t[Child(k, i)] == s[Child(k, i)]
    ensures LinkOk(m, t, k, i)
  {
  }

  /** The new table has no link, since it is zeroed. */
  lemma FreshLink(m: Mem, t: Tables, k: Key, i: nat)
    requires NodeOk(m, t, k) && k.level > 0 && i < 512 && m[t[k]] == Zeros() && Child(k, i) !in t
    ensures LinkOk(m, t, k, i)
  {
    ZeroInvalid();
  }

  /** The link that leads to it. */
  lemma NewLink(m: Mem, t: Tables, k: Key, i: nat, a: Word)
    requires NodeOk(m, t, k) && k.level > 0 && i < 512
    requires Child(k, i) in t && t[Child(k, i)] == a && m[t[k]][i] == PointerPte(a)
    ensures LinkOk(m, t, k, i)
  {
  }

  /** The links of the grown tree, from what held for its parts before. */
  lemma GrownLink(mem: Mem, s: Tables, vpn: int, level: nat, a: Word, k: Key, i: nat)
    requires 0 <= vpn < VPNS && 0 < level <= 2 && NodeOk(mem, s, PathKey(vpn, level)) && i < 512 && k.level > 0
    requires PathKey(vpn, level - 1) !in s && PageIn(mem, a) && mem[a] == Zeros()
    requires s[PathKey(vpn, level)] != a
    requires k != PathKey(vpn, level - 1) ==>
      && NodeOk(mem, s, k) && LinkOk(mem, s, k, i) && s[k] != a
      && (k != PathKey(vpn, level) ==> s[k] != s[PathKey(vpn, level)])
    requires k == PathKey(vpn, level - 1) ==> Child(k, i) !in s
    requires var r := Grown(mem, s, vpn, level, a); NodeOk(r.0, r.1, k)
    ensures var r := Grown(mem, s, vpn, level, a); LinkOk(r.0, r.1, k, i)
  {
    var up, down := PathKey(vpn, level), PathKey(vpn, level - 1);
    PathDown(vpn, level);
    ChildParent(k, i);
    var (m, t) := Grown(mem, s, vpn, level, a);
    if k == down {
      FreshLink(m, t, k, i);
    } else if k == up && i == Index(vpn, level) {
      NewLink(m, t, k, i, a);
    } else {
      ChildParent(up, Index(vpn, level));
      LinkKept(mem, s, m, t, k, i);
    }
  }

  /** What GrownLink needs to know about one link. */
  lemma LinkReady(mem: Mem, s: Tables, vpn: int, level: nat, k: Key, i: nat)
    requires Tree(mem, s) && 0 <= vpn < VPNS && 0 < level <= 2 && PathKey(vpn, level) in s
    requires PathKey(vpn, level - 1) !in s && k.level > 0 && i < 512 && (k in s || k == PathKey(vpn, level - 1))
    ensures k in s ==> NodeOk(mem, s, k) && LinkOk(mem, s, k, i)
    ensures k in s && k != PathKey(vpn, level) ==> s[k] != s[PathKey(vpn, level)]
    ensures k == PathKey(vpn, level - 1) ==> Child(k, i) !in s
  {
    ChildParent(k, i);
    if k in s {
      assert NodeOk(mem, s, k) && LinkOk(mem, s, k, i);
    } else {
      assert Child(k, i) in s ==> NodeOk(mem, s, Child(k, i));
    }
  }

  lemma GrownEntry(mem: Mem, s: Tables, vpn: int, level: nat, a: Word, v: int)
    requires Tree(mem, s) && 0 <= vpn < VPNS && 0 < level <= 2 && NodeOk(mem, s, PathKey(vpn, level)) && 0 <= v < VPNS
    requires PathKey(vpn, level - 1) !in s && PageIn(mem, a) && mem[a] == Zeros()
    requires forall k :: k in s ==> s[k] != a
    requires var r := Grown(mem, s, vpn, level, a); forall k :: k in r.1 ==> NodeOk(r.0, r.1, k)
    ensures var r := Grown(mem, s, vpn, level, a);
      Mapped(r.0, r.1, v) == Mapped(mem, s, v) && (Mapped(mem, s, v) ==> Entry(r.0, r.1, v) == Entry(mem, s, v))
  {
    ZeroInvalid();
    var (m, t) := Grown(mem, s, vpn, level, a);
    if PathKey(v, 0) in s {
      assert NodeOk(mem, s, PathKey(v, 0)) && NodeOk(m, t, PathKey(v, 0));
    }
  }

  /** A new table changes no translation. */
  lemma GrownTree(mem: Mem, s: Tables, vpn: int, level: nat, a: Word)
    requires Tree(mem, s) && 0 <= vpn < VPNS && 0 < level <= 2 && NodeOk(mem, s, PathKey(vpn, level))
    requires PathKey(vpn, level - 1) !in s && PageIn(mem, a) && mem[a] == Zeros()
    requires forall k :: k in s ==> s[k] != a
    ensures var r := Grown(mem, s, vpn, level, a);
      Tree(r.0, r.1) && Mapping(r.0, r.1) == Mapping(mem, s)
  {
    var (m, t) := Grown(mem, s, vpn, level, a);
    GrownNodes(mem, s, vpn, level, a);
    forall k, i | k in t && k.level > 0 && 0 <= i < 512 ensures NodeOk(m, t, k) && LinkOk(m, t, k, i) {
      LinkReady(mem, s, vpn, level, k, i);
      GrownLink(mem, s, vpn, level, a, k, i);
    }
    forall v | 0 <= v < VPNS
      ensures Mapped(m, t, v) == Mapped(mem, s, v)
      ensures Mapped(mem, s, v) ==> Entry(m, t, v) == Entry(mem, s, v)
    {
      GrownEntry(mem, s, vpn, level, a, v);
    }
  }

  lemma LeafKeepsTree(mem: Mem, s: Tables, vpn: int, w: Word)
    requires Tree(mem, s) && 0 <= vpn < VPNS && NodeOk(mem, s, PathKey(vpn, 0))
    ensures Tree(Poke(mem, s[PathKey(vpn, 0)], vpn % 512, w), s)
  {
    var m := Poke(mem, s[PathKey(vpn, 0)], vpn % 512, w);
    forall k | k in s ensures NodeOk(m, s, k) { assert NodeOk(mem, s, k); }
    forall k, i | k in s && k.level > 0 && 0 <= i < 512 ensures LinkOk(m, s, k, i) {
      assert NodeOk(mem, s, k) && LinkOk(mem, s, k, i);
    }
  }

  lemma LeafElsewhere(mem: Mem, s: Tables, vpn: int, w: Word, v: int)
    requires Tree(mem, s) && 0 <= vpn < VPNS && NodeOk(mem, s, PathKey(vpn, 0)) && 0 <= v < VPNS && v != vpn
    ensures var m := Poke(mem, s[PathKey(vpn, 0)], vpn % 512, w);
      && Mapped(m, s, v) == Mapped(mem, s, v)
      && (Mapped(mem, s, v) ==> Entry(m, s, v) == Entry(mem, s, v))
  {
    if PathKey(v, 0) in s {
      assert NodeOk(mem, s, PathKey(v, 0));
      if PathKey(v, 0) == PathKey(vpn, 0) { assert v % 512 != vpn % 512; }
    }
  }

  lemma MappingChange(mem: Mem, m: Mem, s: Tables, vpn: int)
    requires 0 <= vpn < VPNS && NodeOk(m, s, PathKey(vpn, 0))
    requires forall v :: 0 <= v < VPNS && v != vpn ==> Mapped(m, s, v) == Mapped(mem, s, v)
    requires forall v :: 0 <= v < VPNS && v != vpn && Mapped(mem, s, v) && Mapped(m, s, v) ==>
      Entry(m, s, v) == Entry(mem, s, v)
    ensures var w := Entry(m, s, vpn);
      Mapping(m, s) == if Valid(w) then Mapping(mem, s)[vpn := w] else Mapping(mem, s) - {vpn}
  {
  }

  /** Writing the last-level entry of vpn changes the translation of vpn and of nothing else. */
  lemma LeafWritten(mem: Mem, s: Tables, vpn: int, w: Word)
    requires Tree(mem, s) && 0 <= vpn < VPNS && NodeOk(mem, s, PathKey(vpn, 0))
    ensures var m := Poke(mem, s[PathKey(vpn, 0)], vpn % 512, w);
      && Tree(m, s)
      && Mapping(m, s) == if Valid(w) then Mapping(mem, s)[vpn := w] else Mapping(mem, s) - {vpn}
  {
    var m := Poke(mem, s[PathKey(vpn, 0)], vpn % 512, w);
    LeafKeepsTree(mem, s, vpn, w);
    assert NodeOk(m, s, PathKey(vpn, 0)) && Entry(m, s, vpn) == w;
    forall v | 0 <= v < VPNS && v != vpn
      ensures Mapped(m, s, v) == Mapped(mem, s, v)
      ensures Mapped(mem, s, v) ==> Entry(m, s, v) == Entry(mem, s, v)
    {
      LeafElsewhere(mem, s, vpn, w, v);
    }
    MappingChange(mem, m, s, vpn);
  }

  // ----- the translation the hardware performs

  /**
   A valid leaf entry in the sense of section 4.3.2 of the RISC-V Privileged Architecture:
   readable or executable, not writable without being readable, reserved bits 63-54 clear.
  */
  predicate LegalLeaf(pte: Word) {
    && (Bit(pte, PTE_R) || Bit(pte, PTE_X)) && !(Bit(pte, PTE_W) && !Bit(pte, PTE_R))
    && pte < TWO54
  }

  /**
   What a caller of map_page can check about its arguments; as 64 bits, perm leaves the upper ten
   bits of the entry alone.
  */
  predicate LegalPermission(pa: Word, perm: int) {
    var w := perm % TWO64;
    && (Bit(w, PTE_R) || Bit(w, PTE_X)) && !(Bit(w, PTE_W) && !Bit(w, PTE_R))
    && pa < 0x100_0000_0000_0000 && w < TWO54
  }

  lemma EntryBound(n: nat, f: nat)
    requires f < 1024
    ensures n * 1024 + f < TWO54 <==> n < 0x1000_0000_0000
  {
  }

  /** The entry that map_page writes is legal if and only if they are. */
  lemma LegalLeafIff(pa: Word, perm: int)
    ensures LegalLeaf(LeafPte(pa, perm)) <==> LegalPermission(pa, perm)
  {
    LeafParts(pa, perm);
    FlagsOfLeaf(pa, perm);
    PageFits(pa, perm);
    EntryBound(EntryPage(pa, perm), EntryFlags(perm));
  }

  /** A leaf that the hardware finds, and the level of the table it is in. */
  datatype Found = Found(pte: Word, level: nat)

  function PageSize(level: nat): (n: nat) {
    match level case 0 => 0x1000 case 1 => 0x20_0000 case _ => 0x4000_0000
  }

  /**
   The Sv39 walk of sections 4.3.2 and 4.4.1: at `level`, in the table at address a.  A level
   above 0 may hold a leaf (a superpage).  Accessed and dirty bits are not looked at.
  */
  function HwEntry(mem: Mem, a: int, va: Word, level: nat): (r: Option<Found>)
    requires level <= 2
    decreases level
  {
    if a !in mem || |mem[a]| != 512 then None
    else
      var pte := mem[a][VpnMask(va, level)];
      if !Valid(pte) || (!Bit(pte, PTE_R) && Bit(pte, PTE_W)) || pte >= TWO54 then None
      else if Bit(pte, PTE_R) || Bit(pte, PTE_X) then
        if pte / 1024 * 4096 % PageSize(level) != 0 then None else Some(Found(pte, level))
      else if level == 0 then None
      else HwEntry(mem, pte / 1024 * 4096, va, level - 1)
  }

  /** Where the walk leads, whatever the access is. */
  function HwWalk(mem: Mem, a: int, va: Word, level: nat): (pa: Option<int>)
    requires level <= 2
  {
    match HwEntry(mem, a, va, level)
    case None => None
    case Some(leaf) => Some(leaf.pte / 1024 * 4096 + va % PageSize(leaf.level))
  }

  datatype Access = Fetch | Load | Store

  /** Section 4.3.1: bits 1, 2 and 3 of a leaf allow loads, stores and fetches; bit 4 keeps the kernel out. */
  predicate Allows(pte: Word, kind: Access) {
    && pte / 16 % 2 == 0
    && match kind
       case Load => pte / 2 % 2 == 1
       case Store => pte / 4 % 2 == 1
       case Fetch => pte / 8 % 2 == 1
  }

  /** An access of the kernel: where it goes, or None for a page fault. */
  function HwAccess(mem: Mem, a: int, va: Word, kind: Access): (pa: Option<int>) {
    match HwEntry(mem, a, va, 2)
    case None => None
    case Some(leaf) => if Allows(leaf.pte, kind) then HwWalk(mem, a, va, 2) else None
  }

  lemma HwDown(mem: Mem, s: Tables, va: Word, level: nat)
    requires Tree(mem, s) && 0 < level <= 2 && PathKey(Vpn(va), level) in s
    requires forall k :: k in s ==> s[k] < 0x100_0000_0000_0000
    ensures HwEntry(mem, s[PathKey(Vpn(va), level)], va, level) ==
            if PathKey(Vpn(va), level - 1) in s then HwEntry(mem, s[PathKey(Vpn(va), level - 1)], va, level - 1)
            else None
  {
    PathLink(mem, s, Vpn(va), level);
    MaskIsIndex(va, level);
    if PathKey(Vpn(va), level - 1) in s {
      assert NodeOk(mem, s, PathKey(Vpn(va), level - 1));
    }
  }

  lemma HwLeaf(mem: Mem, s: Tables, va: Word)
    requires Tree(mem, s) && PathKey(Vpn(va), 0) in s && NodeOk(mem, s, PathKey(Vpn(va), 0))
    ensures var pte := Entry(mem, s, Vpn(va));
      HwEntry(mem, s[PathKey(Vpn(va), 0)], va, 0) == if Valid(pte) && LegalLeaf(pte) then Some(Found(pte, 0)) else None
  {
    MaskIsIndex(va, 0);
    var pte := Entry(mem, s, Vpn(va));
    assert mem[s[PathKey(Vpn(va), 0)]][VpnMask(va, 0)] == pte;
  }

  /** What the hardware should find at va according to the abstract table. */
  ghost function Translation(mem: Mem, s: Tables, va: Word): (r: Option<int>) {
    var m := Mapping(mem, s);
    if Vpn(va) in m then Some(Pte2Pa(m[Vpn(va)]) + va % PGSIZE) else None
  }

  ghost predicate LegalAt(mem: Mem, s: Tables, v: int) {
    v in Mapping(mem, s) ==> LegalLeaf(Mapping(mem, s)[v])
  }

  /** The upper levels lead to the last-level table for the address, if there is one. */
  lemma HwPath(mem: Mem, s: Tables, va: Word)
    requires Tree(mem, s) && forall k :: k in s ==> s[k] < 0x100_0000_0000_0000
    ensures PathKey(Vpn(va), 0) in s ==> NodeOk(mem, s, PathKey(Vpn(va), 0))
    ensures HwEntry(mem, s[ROOT], va, 2) ==
            if PathKey(Vpn(va), 0) in s then HwEntry(mem, s[PathKey(Vpn(va), 0)], va, 0) else None
  {
    PathUp(mem, s, Vpn(va));
    HwDown(mem, s, va, 2);
    if PathKey(Vpn(va), 1) in s { HwDown(mem, s, va, 1); }
  }

  /** The hardware's walk ends at the entry of the abstract table, if that is legal, and otherwise nowhere. */
  lemma HardwareFinds(mem: Mem, s: Tables, va: Word)
    requires Tree(mem, s) && forall k :: k in s ==> s[k] < 0x100_0000_0000_0000
    ensures var m := Mapping(mem, s);
      HwEntry(mem, s[ROOT], va, 2) ==
      if Vpn(va) in m && LegalLeaf(m[Vpn(va)]) then Some(Found(m[Vpn(va)], 0)) else None
  {
    HwPath(mem, s, va);
    if PathKey(Vpn(va), 0) in s { HwLeaf(mem, s, va); }
  }

  /** At every address the hardware finds what the abstract table says, or faults on an illegal entry. */
  lemma HardwareAgrees(mem: Mem, s: Tables, va: Word)
    requires Tree(mem, s) && va < MAXVA
    requires forall k :: k in s ==> s[k] < 0x100_0000_0000_0000
    ensures HwWalk(mem, s[ROOT], va, 2) == if LegalAt(mem, s, Vpn(va)) then Translation(mem, s, va) else None
  {
    HardwareFinds(mem, s, va);
    if LegalAt(mem, s, Vpn(va)) && Vpn(va) in Mapping(mem, s) { LegalPage(Mapping(mem, s)[Vpn(va)]); }
  }

  lemma LegalPage(pte: Word)
    requires LegalLeaf(pte)
    ensures Pte2Pa(pte) == pte / 1024 * 4096
  {
  }

  ghost predicate AgreesAt(mem: Mem, s: Tables, va: Word)
    requires ROOT in s
  {
    HwWalk(mem, s[ROOT], va, 2) == Translation(mem, s, va)
  }

  lemma LegalAgrees(mem: Mem, s: Tables, va: Word)
    requires Tree(mem, s) && va < MAXVA && LegalAt(mem, s, Vpn(va))
    requires forall k :: k in s ==> s[k] < 0x100_0000_0000_0000
    ensures AgreesAt(mem, s, va)
  {
    HardwareAgrees(mem, s, va);
  }

  lemma LowVpn(va: Word)
    requires va < MAXVA
    ensures Vpn(va) == va / PGSIZE < MAXVA / PGSIZE
  {
  }

  lemma IllegalShows(mem: Mem, s: Tables, v: int)
    requires Tree(mem, s) && 0 <= v < MAXVA / PGSIZE && !LegalAt(mem, s, v)
    requires forall k :: k in s ==> s[k] < 0x100_0000_0000_0000
    ensures !AgreesAt(mem, s, v * PGSIZE)
  {
    assert Vpn(v * PGSIZE) == v;
    HardwareAgrees(mem, s, v * PGSIZE);
  }

  /** The hardware agrees with the abstract table everywhere exactly when all entries below MAXVA are legal. */
  lemma HardwareAgreesIff(mem: Mem, s: Tables)
    requires Tree(mem, s) && forall k :: k in s ==> s[k] < 0x100_0000_0000_0000
    ensures (forall va: Word :: va < MAXVA ==> AgreesAt(mem, s, va))
            <==> (forall v :: 0 <= v < MAXVA / PGSIZE ==> LegalAt(mem, s, v))
  {
    if forall v :: 0 <= v < MAXVA / PGSIZE ==> LegalAt(mem, s, v) {
      forall va: Word | va < MAXVA ensures AgreesAt(mem, s, va) {
        LowVpn(va);
        LegalAgrees(mem, s, va);
      }
    } else {
      var v :| 0 <= v < MAXVA / PGSIZE && !LegalAt(mem, s, v);
      IllegalShows(mem, s, v);
    }
  }
}
