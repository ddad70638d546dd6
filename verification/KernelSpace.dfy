/** The kernel's own address space: kvminit (kernel/mm/vm.c) and procinit (kernel/proc.c). */
module KernelSpace {
  import opened Prelude
  import opened Riscv
  import opened PageTree
  import opened Heap
  import opened AddressSpace
  import opened PageLists
  import opened PhysMem
  import opened KernelMap

  const RX := PTE_R + PTE_X
  const RW := PTE_R + PTE_W

  // ----- the tables a range of pages needs

  function Span(level: nat, lo: nat, hi: nat): (r: set<Key>) {
    set q: nat | lo <= q <= hi :: Key(level, q)
  }

  lemma {:induction false} SpanSize(level: nat, lo: nat, hi: nat)
    requires lo <= hi
    ensures |Span(level, lo, hi)| == hi - lo + 1
    decreases hi
  {
    if lo == hi {
      assert Span(level, lo, hi) == {Key(level, lo)};
    } else {
      SpanSize(level, lo, hi - 1);
      assert Span(level, lo, hi) == Span(level, lo, hi - 1) + {Key(level, hi)};
    }
  }

  /** The root, and what lies below it on the way to the pages b .. b + n - 1. */
  function SpanKeys(b: PageNo, n: nat): (r: set<Key>)
    requires n > 0
  {
    {ROOT} + Span(1, b / 0x4_0000, (b + n - 1) / 0x4_0000) + Span(0, b / 512, (b + n - 1) / 512)
  }

  lemma OnePathKeys(v: PageNo)
    ensures PathBelow(v, 2) == SpanKeys(v, 1)
  {
    assert PathBelow(v, 0) == {Key(0, v / 512)};
    assert PathBelow(v, 1) == {Key(1, v / 0x4_0000)} + PathBelow(v, 0);
    assert PathBelow(v, 2) == {ROOT} + PathBelow(v, 1);
    assert Span(1, v / 0x4_0000, v / 0x4_0000) == {Key(1, v / 0x4_0000)};
    assert Span(0, v / 512, v / 512) == {Key(0, v / 512)};
  }

  lemma SpanGrows(level: nat, lo: nat, hi: nat, hi': nat)
    requires lo <= hi <= hi' <= hi + 1
    ensures Span(level, lo, hi') == Span(level, lo, hi) + Span(level, hi', hi')
  {
  }

  lemma SpanNext(b: PageNo, i: nat)
    requires i > 0 && b + i < VPNS
    ensures SpanKeys(b, i + 1) == SpanKeys(b, i) + SpanKeys(b + i, 1)
  {
    var v := b + i;
    assert (v - 1) / 512 <= v / 512 <= (v - 1) / 512 + 1;
    assert (v - 1) / 0x4_0000 <= v / 0x4_0000 <= (v - 1) / 0x4_0000 + 1;
    SpanGrows(1, b / 0x4_0000, (v - 1) / 0x4_0000, v / 0x4_0000);
    SpanGrows(0, b / 512, (v - 1) / 512, v / 512);
  }

  lemma FirstNeed(vs: seq<PageNo>)
    requires |vs| > 0
    ensures ListKeys(vs, 1) == SpanKeys(vs[0], 1)
  {
    OnePathKeys(vs[0]);
    assert ListKeys(vs, 1) == ListKeys(vs, 0) + PathBelow(vs[0], 2);
  }

  lemma NextNeed(vs: seq<PageNo>, b: PageNo, i: nat)
    requires 0 < i < |vs| && b + i < VPNS && vs[i] == b + i && ListKeys(vs, i) == SpanKeys(b, i)
    ensures ListKeys(vs, i + 1) == SpanKeys(b, i + 1)
  {
    OnePathKeys(vs[i]);
    AddKeys(vs, i, SpanKeys(b, i), SpanKeys(vs[i], 1));
    SpanNext(b, i);
  }

  lemma AddKeys(vs: seq<PageNo>, i: nat, got: set<Key>, more: set<Key>)
    requires i < |vs| && ListKeys(vs, i) == got && PathBelow(vs[i], 2) == more
    ensures ListKeys(vs, i + 1) == got + more
  {
  }

  lemma {:induction false} RangeNeeds(b: PageNo, i: nat, n: nat)
    requires 0 < i <= n && b + n <= VPNS
    ensures ListKeys(RangeVpns(b, n), i) == SpanKeys(b, i)
    decreases i
  {
    assert RangeVpns(b, n)[i - 1] == b + i - 1;
    if i == 1 {
      FirstNeed(RangeVpns(b, n));
    } else {
      RangeNeeds(b, i - 1, n);
      NextNeed(RangeVpns(b, n), b, i - 1);
    }
  }

  // ----- a region that does not wrap around

  lemma CountOf(va: Word, sz: Word, b: PageNo, n: nat)
    requires va == b * PGSIZE && sz == n * PGSIZE && n > 0 && b + n <= VPNS
    ensures PageCount(va, sz) == n && Vpn(va) == b && Aligned(va)
  {
    assert (va + sz - 1) % TWO64 == va + sz - 1;
    assert (va + sz - 1) / PGSIZE == b + n - 1;
  }

  predicate Inside(v: int, b: PageNo, n: nat) {
    b <= v < b + n
  }

  lemma OffsetInside(v: PageNo, b: PageNo, n: nat)
    requires b + n <= VPNS
    ensures Offset(v, b) < n <==> b <= v < b + n
    ensures b <= v ==> Offset(v, b) == v - b
  {
  }

  // ----- kvminit

  /** m with the pages b .. b + n - 1 mapped to themselves. */
  function Identity(m: map<int, Word>, b: PageNo, perm: int, n: nat): (r: map<int, Word>)
    requires b + n <= VPNS
  {
    map v | v in m.Keys + (set x: PageNo | Inside(x, b, n)) ::
        if Inside(v, b, n) then LeafPte(v * PGSIZE, perm) else m[v]
  }

  /** Page v of a range that starts at page b and is mapped to itself. */
  lemma OwnPte(v: PageNo, b: PageNo, perm: int, n: nat)
    requires b + n <= VPNS && b <= v < b + n
    ensures NthPte(b * PGSIZE, perm, Offset(v, b)) == LeafPte(v * PGSIZE, perm)
  {
    OffsetInside(v, b, n);
    assert b * PGSIZE + (v - b) * PGSIZE == v * PGSIZE;
  }

  lemma RangeIdentityAt(m: map<int, Word>, b: PageNo, perm: int, n: nat, v: int)
    requires b + n <= VPNS
    ensures var r, id := WithRange(m, b, b * PGSIZE, perm, n), Identity(m, b, perm, n);
      (v in r <==> v in id) && (v in r ==> r[v] == id[v])
  {
    if 0 <= v < VPNS {
      OffsetInside(v, b, n);
      if b <= v < b + n { OwnPte(v, b, perm, n); }
    }
  }

  lemma RangeIsIdentity(m: map<int, Word>, b: PageNo, perm: int, n: nat)
    requires b + n <= VPNS
    ensures WithRange(m, b, b * PGSIZE, perm, n) == Identity(m, b, perm, n)
  {
    var r, id := WithRange(m, b, b * PGSIZE, perm, n), Identity(m, b, perm, n);
    forall v ensures (v in r <==> v in id) && (v in r ==> r[v] == id[v]) { RangeIdentityAt(m, b, perm, n, v); }
  }

  /** The linker script puts etext on a page boundary inside the kernel image. */
  predicate TextEnds(etext: Word) {
    Aligned(etext) && KERNBASE < etext < PHYSTOP
  }

  /**
   Kernel text readable and executable, the rest of memory and the UART readable and writable, all at
   their own addresses.
  */
  function KernelMapping(etext: Word): (r: map<int, Word>)
    requires TextEnds(etext)
  {
    map v: PageNo | (KERNBASE <= v * PGSIZE < PHYSTOP) || v == UART0 / PGSIZE ::
      LeafPte(v * PGSIZE, if KERNBASE <= v * PGSIZE < etext then RX else RW)
  }

  lemma RegionsMakeKernel(etext: Word)
    requires TextEnds(etext)
    ensures var b, e, u := KERNBASE / PGSIZE, etext / PGSIZE, UART0 / PGSIZE;
      Identity(Identity(Identity(map[], b, RX, e - b), e, RW, PHYSTOP / PGSIZE - e), u, RW, 1) == KernelMapping(etext)
  {
  }

  /** The tables of the kernel's tree: one for every 2 MB of memory, one for the UART, and those above them. */
  function KernelKeys(): (r: set<Key>) {
    {ROOT, Key(1, 0), Key(1, 2), Key(0, 128)} + Span(0, 1024, 1087)
  }

  lemma KernelNeeds(etext: Word)
    requires TextEnds(etext)
    ensures var b, e, u := KERNBASE / PGSIZE, etext / PGSIZE, UART0 / PGSIZE;
      {ROOT} + SpanKeys(b, e - b) + SpanKeys(e, PHYSTOP / PGSIZE - e) + SpanKeys(u, 1) == KernelKeys()
  {
    var b, e := KERNBASE / PGSIZE, etext / PGSIZE;
    assert (e - 1) / 512 <= e / 512 <= (e - 1) / 512 + 1;
    assert b / 512 == 1024 && (PHYSTOP / PGSIZE - 1) / 512 == 1087;
    assert Span(1, b / 0x4_0000, (e - 1) / 0x4_0000) == {Key(1, 2)};
    assert Span(1, e / 0x4_0000, (PHYSTOP / PGSIZE - 1) / 0x4_0000) == {Key(1, 2)};
    assert Span(0, b / 512, (e - 1) / 512) + Span(0, e / 512, (PHYSTOP / PGSIZE - 1) / 512) == Span(0, 1024, 1087);
    assert Span(1, 0, 0) == {Key(1, 0)} && Span(0, 128, 128) == {Key(0, 128)};
  }

  lemma KernelTables()
    ensures |KernelKeys()| == 68
  {
    SpanSize(0, 1024, 1087);
    assert KernelKeys() == Span(0, 1024, 1087) + {ROOT, Key(1, 0), Key(1, 2), Key(0, 128)};
    assert Span(0, 1024, 1087) * {ROOT, Key(1, 0), Key(1, 2), Key(0, 128)} == {};
  }

  // the list of pages kvminit goes through

  function TextVpns(etext: Word): (r: seq<PageNo>)
    requires TextEnds(etext)
  {
    RangeVpns(Vpn(KERNBASE), PageCount(KERNBASE, etext - KERNBASE))
  }

  function DataVpns(etext: Word): (r: seq<PageNo>)
    requires TextEnds(etext)
  {
    RangeVpns(Vpn(etext), PageCount(etext, PHYSTOP - etext))
  }

  function UartVpns(): (r: seq<PageNo>) {
    RangeVpns(Vpn(UART0), PageCount(UART0, PGSIZE))
  }

  function TextPtes(etext: Word): (ws: seq<Word>)
    requires TextEnds(etext)
    ensures |ws| == |TextVpns(etext)|
  {
    RangePtes(KERNBASE, RX, PageCount(KERNBASE, etext - KERNBASE))
  }

  function DataPtes(etext: Word): (ws: seq<Word>)
    requires TextEnds(etext)
    ensures |ws| == |DataVpns(etext)|
  {
    RangePtes(etext, RW, PageCount(etext, PHYSTOP - etext))
  }

  function UartPtes(): (ws: seq<Word>)
    ensures |ws| == |UartVpns()|
  {
    RangePtes(UART0, RW, PageCount(UART0, PGSIZE))
  }

  lemma TextRegion(etext: Word)
    requires TextEnds(etext)
    ensures var b, n := KERNBASE / PGSIZE, etext / PGSIZE - KERNBASE / PGSIZE;
      TextVpns(etext) == RangeVpns(b, n) && TextPtes(etext) == RangePtes(KERNBASE, RX, n) &&
      ListKeys(TextVpns(etext), |TextVpns(etext)|) == SpanKeys(b, n)
  {
    var b, n := KERNBASE / PGSIZE, etext / PGSIZE - KERNBASE / PGSIZE;
    CountOf(KERNBASE, etext - KERNBASE, b, n);
    RangeNeeds(b, n, n);
  }

  lemma DataRegion(etext: Word)
    requires TextEnds(etext)
    ensures var b, n := etext / PGSIZE, PHYSTOP / PGSIZE - etext / PGSIZE;
      DataVpns(etext) == RangeVpns(b, n) && DataPtes(etext) == RangePtes(etext, RW, n) &&
      ListKeys(DataVpns(etext), |DataVpns(etext)|) == SpanKeys(b, n)
  {
    var b, n := etext / PGSIZE, PHYSTOP / PGSIZE - etext / PGSIZE;
    CountOf(etext, PHYSTOP - etext, b, n);
    RangeNeeds(b, n, n);
  }

  lemma UartRegion()
    ensures var b := UART0 / PGSIZE;
      UartVpns() == RangeVpns(b, 1) && UartPtes() == RangePtes(UART0, RW, 1) &&
      ListKeys(UartVpns(), |UartVpns()|) == SpanKeys(b, 1)
  {
    CountOf(UART0, PGSIZE, UART0 / PGSIZE, 1);
    RangeNeeds(UART0 / PGSIZE, 1, 1);
  }

  /** Pages b .. b + n - 1 after the pages of m. */
  lemma IdentityEntered(m: map<int, Word>, b: PageNo, perm: int, n: nat)
    requires b + n <= VPNS && forall v: PageNo :: Inside(v, b, n) ==> v !in m
    ensures Entered(m, RangeVpns(b, n), RangePtes(b * PGSIZE, perm, n), n) == Identity(m, b, perm, n)
    ensures Fresh(m, RangeVpns(b, n), n)
  {
    RangeEntered(m, b, b * PGSIZE, perm, n, n);
    RangeIsIdentity(m, b, perm, n);
    RangeFresh(m, b, n);
    forall v: PageNo | Offset(v, b) < n ensures v !in m { OffsetInside(v, b, n); }
  }

  /** Three lists of pages, each entered after the ones before. */
  lemma ThreeEntered(vs: seq<PageNo>, ws: seq<Word>, us: seq<PageNo>, xs: seq<Word>, ts: seq<PageNo>, ys: seq<Word>,
                     m1: map<int, Word>, m2: map<int, Word>, m3: map<int, Word>)
    requires |vs| == |ws| && |us| == |xs| && |ts| == |ys|
    requires Fresh(map[], vs, |vs|) && Entered(map[], vs, ws, |vs|) == m1
    requires Fresh(m1, us, |us|) && Entered(m1, us, xs, |us|) == m2
    requires Fresh(m2, ts, |ts|) && Entered(m2, ts, ys, |ts|) == m3
    ensures Fresh(map[], vs + us + ts, |vs + us + ts|)
    ensures Entered(map[], vs + us + ts, ws + xs + ys, |vs + us + ts|) == m3
  {
    FreshJoin(map[], vs, ws, us);
    JoinEntered(map[], vs, ws, us, xs);
    FreshJoin(map[], vs + us, ws + xs, ts);
    JoinEntered(map[], vs + us, ws + xs, ts, ys);
  }

  function TextMap(etext: Word): (r: map<int, Word>)
    requires TextEnds(etext)
  {
    Identity(map[], KERNBASE / PGSIZE, RX, etext / PGSIZE - KERNBASE / PGSIZE)
  }

  function MemoryMap(etext: Word): (r: map<int, Word>)
    requires TextEnds(etext)
  {
    Identity(TextMap(etext), etext / PGSIZE, RW, PHYSTOP / PGSIZE - etext / PGSIZE)
  }

  lemma TextEntered(etext: Word)
    requires TextEnds(etext)
    ensures var vs := TextVpns(etext);
      Fresh(map[], vs, |vs|) && Entered(map[], vs, TextPtes(etext), |vs|) == TextMap(etext)
  {
    TextRegion(etext);
    IdentityEntered(map[], KERNBASE / PGSIZE, RX, etext / PGSIZE - KERNBASE / PGSIZE);
  }

  /** The text ends where the data begin. */
  lemma TextBelow(etext: Word)
    requires TextEnds(etext)
    ensures etext / PGSIZE * PGSIZE == etext
    ensures forall v: PageNo :: Inside(v, etext / PGSIZE, PHYSTOP / PGSIZE - etext / PGSIZE) ==> v !in TextMap(etext)
  {
  }

  lemma DataEntered(etext: Word)
    requires TextEnds(etext)
    ensures var vs := DataVpns(etext);
      Fresh(TextMap(etext), vs, |vs|) && Entered(TextMap(etext), vs, DataPtes(etext), |vs|) == MemoryMap(etext)
  {
    DataRegion(etext);
    TextBelow(etext);
    IdentityEntered(TextMap(etext), etext / PGSIZE, RW, PHYSTOP / PGSIZE - etext / PGSIZE);
  }

  lemma UartEntered(etext: Word)
    requires TextEnds(etext)
    ensures var vs := UartVpns();
      Fresh(MemoryMap(etext), vs, |vs|) && Entered(MemoryMap(etext), vs, UartPtes(), |vs|) == KernelMapping(etext)
  {
    UartRegion();
    IdentityEntered(MemoryMap(etext), UART0 / PGSIZE, RW, 1);
    RegionsMakeKernel(etext);
  }

  lemma KernelEntered(etext: Word)
    requires TextEnds(etext)
    ensures
      var vs := TextVpns(etext) + DataVpns(etext) + UartVpns();
      var ws := TextPtes(etext) + DataPtes(etext) + UartPtes();
      Fresh(map[], vs, |vs|) && Entered(map[], vs, ws, |vs|) == KernelMapping(etext)
  {
    TextEntered(etext);
    DataEntered(etext);
    UartEntered(etext);
    ThreeEntered(TextVpns(etext), TextPtes(etext), DataVpns(etext), DataPtes(etext), UartVpns(), UartPtes(),
                 TextMap(etext), MemoryMap(etext), KernelMapping(etext));
  }

  lemma KernelSum(etext: Word, k1: set<Key>, k2: set<Key>, k3: set<Key>)
    requires TextEnds(etext)
    requires k1 == SpanKeys(KERNBASE / PGSIZE, etext / PGSIZE - KERNBASE / PGSIZE)
    requires k2 == SpanKeys(etext / PGSIZE, PHYSTOP / PGSIZE - etext / PGSIZE) && k3 == SpanKeys(UART0 / PGSIZE, 1)
    ensures {ROOT} + (k1 + k2 + k3) == KernelKeys() && |(k1 + k2 + k3) - {ROOT}| == 67
  {
    KernelNeeds(etext);
    assert {ROOT} + (k1 + k2 + k3) == {ROOT} + k1 + k2 + k3;
    CountKernel(k1 + k2 + k3);
  }

  lemma KernelListKeys(etext: Word)
    requires TextEnds(etext)
    ensures var vs := TextVpns(etext) + DataVpns(etext) + UartVpns();
      {ROOT} + ListKeys(vs, |vs|) == KernelKeys() && |ListKeys(vs, |vs|) - {ROOT}| == 67
  {
    var vs, us, ts := TextVpns(etext), DataVpns(etext), UartVpns();
    TextRegion(etext);
    DataRegion(etext);
    UartRegion();
    KernelSum(etext, ListKeys(vs, |vs|), ListKeys(us, |us|), ListKeys(ts, |ts|));
    JoinKeys(vs, us);
    JoinKeys(vs + us, ts);
  }

  lemma CountKernel(keys: set<Key>)
    requires {ROOT} + keys == KernelKeys()
    ensures |keys - {ROOT}| == 67
  {
    KernelTables();
    assert keys - {ROOT} == KernelKeys() - {ROOT};
  }

  lemma TextTerms(etext: Word, base: Word, sz: Word)
    requires TextEnds(etext) && base == KERNBASE && sz == etext - KERNBASE
    ensures sz > 0 && Aligned(base) && PageCount(base, sz) == |TextVpns(etext)|
    ensures RangeVpns(Vpn(base), PageCount(base, sz)) == TextVpns(etext) &&
      RangePtes(base, RX, PageCount(base, sz)) == TextPtes(etext)
  {
  }

  method MapText(ram: Ram, pt: int, etext: Word) returns (r: Outcome)
    requires Rooted(ram.View(), pt) && TextEnds(etext)
    modifies ram
    ensures r.Done? <==> CanMapList(old(ram.View()), pt, TextVpns(etext), |TextVpns(etext)|)
    ensures r.Done? ==> MapsList(old(ram.View()), ram.View(), pt, TextVpns(etext), TextPtes(etext), |TextVpns(etext)|)
  {
    var base: Word, sz: Word := KERNBASE, etext - KERNBASE;
    TextTerms(etext, base, sz);
    r := KvmMap(ram, pt, base, base, sz, RX);
  }

  method MapData(ram: Ram, pt: int, etext: Word) returns (r: Outcome)
    requires Rooted(ram.View(), pt) && TextEnds(etext)
    modifies ram
    ensures r.Done? <==> CanMapList(old(ram.View()), pt, DataVpns(etext), |DataVpns(etext)|)
    ensures r.Done? ==> MapsList(old(ram.View()), ram.View(), pt, DataVpns(etext), DataPtes(etext), |DataVpns(etext)|)
  {
    r := KvmMap(ram, pt, etext, etext, PHYSTOP - etext, RW);
  }

  method MapUart(ram: Ram, pt: int) returns (r: Outcome)
    requires Rooted(ram.View(), pt)
    modifies ram
    ensures r.Done? <==> CanMapList(old(ram.View()), pt, UartVpns(), |UartVpns()|)
    ensures r.Done? ==> MapsList(old(ram.View()), ram.View(), pt, UartVpns(), UartPtes(), |UartVpns()|)
  {
    r := KvmMap(ram, pt, UART0, UART0, PGSIZE, RW);
  }

  /** The pages us have been mapped after the pages vs. */
  lemma MappedBoth(h0: Heap, h: Heap, g: Heap, root: int, vs: seq<PageNo>, ws: seq<Word>, us: seq<PageNo>,
        xs: seq<Word>, ok: bool)
    requires root in h0.trees && root in h.trees && |vs| == |ws| && |us| == |xs|
    requires CanMapList(h0, root, vs, |vs|) && MapsList(h0, h, root, vs, ws, |vs|)
    requires ok <==> CanMapList(h, root, us, |us|)
    requires ok ==> MapsList(h, g, root, us, xs, |us|)
    ensures ok <==> CanMapList(h0, root, vs + us, |vs + us|)
    ensures ok ==> MapsList(h0, g, root, vs + us, ws + xs, |vs + us|)
  {
    CanMapJoin(h0, h, root, vs, ws, us);
    if ok { MapsJoin(h0, h, g, root, vs, ws, us, xs); }
  }

  /** The three calls of kvmmap in kvminit. */
  method MapKernel(ram: Ram, pt: int, etext: Word) returns (r: Outcome)
    requires Rooted(ram.View(), pt) && TextEnds(etext)
    modifies ram
    ensures
      var vs, us, ts := TextVpns(etext), DataVpns(etext), UartVpns();
      var ws, xs, ys := TextPtes(etext), DataPtes(etext), UartPtes();
      var h := old(ram.View());
      && (r.Panicked? ==>
            || !CanMapList(h, pt, vs, |vs|) || !CanMapList(h, pt, vs + us, |vs + us|)
            || !CanMapList(h, pt, vs + us + ts, |vs + us + ts|))
      && (r.Done? ==> CanMapList(h, pt, vs + us + ts, |vs + us + ts|))
      && (r.Done? ==> MapsList(h, ram.View(), pt, vs + us + ts, ws + xs + ys, |vs + us + ts|))
  {
    ghost var h := ram.View();
    ghost var vs, us, ts := TextVpns(etext), DataVpns(etext), UartVpns();
    ghost var ws, xs, ys := TextPtes(etext), DataPtes(etext), UartPtes();
    r := MapText(ram, pt, etext);
    if r.Panicked? {
      return;
    }
    ghost var h1 := ram.View();
    r := MapData(ram, pt, etext);
    MappedBoth(h, h1, ram.View(), pt, vs, ws, us, xs, r.Done?);
    if r.Panicked? {
      return;
    }
    ghost var h2 := ram.View();
    r := MapUart(ram, pt);
    MappedBoth(h, h2, ram.View(), pt, vs + us, ws + xs, ts, ys, r.Done?);
  }

  // ----- kvminit as a whole

  /** Since h0 the tree at root has come to be exactly m, with the given tables, for `used` pages from the list. */
  ghost predicate Stage(h0: Heap, h: Heap, root: int, m: map<int, Word>, keys: set<Key>, used: nat) {
    && Rooted(h, root) && OthersSame(h0, h, root) && MapOf(h, root) == m && h.trees[root].Keys == keys
    && used <= |h0.free| && h.free == h0.free[used..]
  }

  lemma CreatedStage(h: Heap)
    requires HeapOk(h) && h.free != []
    ensures Stage(h, Created(h), h.free[0], map[], {ROOT}, 1) && h.free[0] !in h.trees
  {
    CreatedOk(h);
  }

  /** In an empty tree there is room for all three lists, and then for the first ones too, or not for all. */
  lemma KernelRoom(h: Heap, root: int, etext: Word, vs: seq<PageNo>, us: seq<PageNo>, ts: seq<PageNo>)
    requires TextEnds(etext) && root in h.trees && MapOf(h, root) == map[] && h.trees[root].Keys == {ROOT}
    requires vs == TextVpns(etext) && us == DataVpns(etext) && ts == UartVpns()
    ensures CanMapList(h, root, vs + us + ts, |vs + us + ts|) <==> |h.free| >= 67
    ensures |h.free| >= 67 ==> CanMapList(h, root, vs + us, |vs + us|) && CanMapList(h, root, vs, |vs|)
  {
    KernelEntered(etext);
    KernelListKeys(etext);
    if CanMapList(h, root, vs + us + ts, |vs + us + ts|) {
      CannotMapMore(h, root, vs + us, ts);
      CannotMapMore(h, root, vs, us);
    }
  }

  lemma KernelStage(h0: Heap, h1: Heap, h: Heap, root: int, etext: Word)
    requires TextEnds(etext) && Stage(h0, h1, root, map[], {ROOT}, 1)
    requires MapsList(h1, h, root, TextVpns(etext) + DataVpns(etext) + UartVpns(),
                      TextPtes(etext) + DataPtes(etext) + UartPtes(),
                      |TextVpns(etext) + DataVpns(etext) + UartVpns()|)
    ensures Stage(h0, h, root, KernelMapping(etext), KernelKeys(), 68)
  {
    OthersTrans(h0, h1, h, root);
    KernelEntered(etext);
    KernelListKeys(etext);
    DropDrop(h0.free, 1, 67);
  }

  /** kvminit; it runs out of memory exactly when fewer than 68 pages are free. */
  method KvmInit(ram: Ram, etext: Word) returns (r: Outcome, pt: int)
    requires ram.Valid() && TextEnds(etext)
    modifies ram
    ensures r.Done? <==> |old(ram.free)| >= 68
    ensures r.Done? ==>
      pt !in old(ram.trees) && Stage(old(ram.View()), ram.View(), pt, KernelMapping(etext), KernelKeys(), 68)
  {
    ghost var h0 := ram.View();
    r, pt := ram.CreatePagetable();
    if r.Panicked? {
      return;
    }
    CreatedStage(h0);
    ghost var h1 := ram.View();
    ghost var vs, us, ts := TextVpns(etext), DataVpns(etext), UartVpns();
    KernelRoom(h1, pt, etext, vs, us, ts);
    r := MapKernel(ram, pt, etext);
    if r.Done? { KernelStage(h0, h1, ram.View(), pt, etext); }
  }
}
