/** kvmmap (kernel/mm/vm.c): mapping a range of pages, in 64-bit arithmetic that may wrap around. */
module KernelMap {
  import opened Prelude
  import opened Riscv
  import opened Heap
  import opened AddressSpace
  import opened PageLists
  import opened PhysMem

  // ----- ranges of pages

  /** How many pages after a the page `last` is, counting on from the top of the address space to 0. */
  function PagesTo(a: Word, last: Word): (r: nat) {
    (last - a) % TWO64 / PGSIZE
  }

  /** a + PGSIZE in 64 bits */
  function NextPageAddr(a: Word): (r: Word) {
    if a + PGSIZE < TWO64 then a + PGSIZE else a + PGSIZE - TWO64
  }

  /** The number of pages kvmmap maps for sz > 0 bytes at va. */
  function PageCount(va: Word, sz: Word): (r: nat)
    requires sz > 0
  {
    PagesTo(PgRoundDown(va), PgRoundDown((va + sz - 1) % TWO64)) + 1
  }

  /** The i-th page number from b on; the walk sees only 27 bits of it. */
  function NthVpn(b: PageNo, i: nat): (r: PageNo)
  {
    (b + i) % VPNS
  }

  /** How far page number v lies beyond b. */
  function Offset(v: PageNo, b: PageNo): (i: nat)
    ensures i < VPNS
  {
    (v - b) % VPNS
  }

  function NthPte(pa: Word, perm: int, i: nat): (r: Word)
  {
    LeafPte((pa + i * PGSIZE) % TWO64, perm)
  }

  function RangeVpns(b: PageNo, n: nat): (vs: seq<PageNo>)
    ensures |vs| == n
  {
    seq(n, i requires 0 <= i => NthVpn(b, i))
  }

  function RangePtes(pa: Word, perm: int, n: nat): (ws: seq<Word>)
    ensures |ws| == n
  {
    seq(n, i requires 0 <= i => NthPte(pa, perm, i))
  }

  // ----- the loop

  /** The i-th turn of the loop, at address va[i] and physical address qa[i]. */
  predicate TurnOk(va: seq<Word>, qa: seq<Word>, last: Word, vs: seq<PageNo>, ws: seq<Word>, pa: Word,
                   perm: int, i: nat)
    requires i < |va| == |qa| == |vs| == |ws|
  {
    && Aligned(va[i]) && Vpn(va[i]) == vs[i]
    && LeafPte(qa[i], perm) == ws[i] && (Aligned(qa[i]) <==> Aligned(pa))
    && (va[i] == last <==> i + 1 == |va|)
    && (i + 1 < |va| ==> va[i + 1] == NextPageAddr(va[i]) && qa[i + 1] == NextPageAddr(qa[i]))
  }

  ghost predicate TurnsOk(va: seq<Word>, qa: seq<Word>, last: Word, vs: seq<PageNo>, ws: seq<Word>, pa: Word,
                          perm: int)
  {
    && 0 < |va| == |qa| == |vs| == |ws| && qa[0] == pa
    && forall i :: 0 <= i < |va| ==> TurnOk(va, qa, last, vs, ws, pa, perm, i)
  }

  /** One turn of the loop of kvmmap; h is the heap it started with. */
  method MapNext(ram: Ram, pt: int, a: Word, q: Word, perm: int,
                 ghost h: Heap, ghost vs: seq<PageNo>, ghost ws: seq<Word>, ghost i: nat)
    returns (r: Outcome)
    requires i < |vs| == |ws| && pt in h.trees
    requires Aligned(a) && Vpn(a) == vs[i] && LeafPte(q, perm) == ws[i]
    requires CanMapList(h, pt, vs, i) && MapsList(h, ram.View(), pt, vs, ws, i)
    modifies ram
    ensures r.Panicked? ==> !Aligned(q) || !CanMapList(h, pt, vs, |vs|)
    ensures r.Done? ==> Aligned(q) && CanMapList(h, pt, vs, i + 1) && MapsList(h, ram.View(), pt, vs, ws, i + 1)
  {
    ghost var g := ram.View();
    Stuck(h, g, pt, vs, ws, i);
    var res;
    r, res := ram.MapPage(pt, a, q, perm);
    if r.Panicked? || res != 0 {
      return Panicked;
    }
    MapsNext(h, g, ram.View(), pt, vs, ws, i);
  }

  /** The loop of kvmmap. */
  method MapPages(ram: Ram, pt: int, first: Word, last: Word, pa: Word, perm: int,
                  ghost va: seq<Word>, ghost qa: seq<Word>, ghost vs: seq<PageNo>, ghost ws: seq<Word>)
    returns (r: Outcome)
    requires Rooted(ram.View(), pt) && TurnsOk(va, qa, last, vs, ws, pa, perm) && first == va[0]
    modifies ram
    ensures r.Panicked? ==> !Aligned(pa) || !CanMapList(old(ram.View()), pt, vs, |vs|)
    ensures r.Done? ==> Aligned(pa) && CanMapList(old(ram.View()), pt, vs, |vs|)
    ensures r.Done? ==> MapsList(old(ram.View()), ram.View(), pt, vs, ws, |vs|)
  {
    var a: Word, q: Word := first, pa;
    ghost var h, i := ram.View(), 0;
    MapsNothing(h, pt, vs, ws);
    while true
      invariant i < |va| && a == va[i] && q == qa[i]
      invariant CanMapList(h, pt, vs, i) && MapsList(h, ram.View(), pt, vs, ws, i)
      decreases |va| - i
    {
      assert TurnOk(va, qa, last, vs, ws, pa, perm, i);
      r := MapNext(ram, pt, a, q, perm, h, vs, ws, i);
      if r.Panicked? || a == last {
        return;
      }
      a, q, i := NextPageAddr(a), NextPageAddr(q), i + 1;
    }
  }

  // ----- the addresses the loop runs through

  /** x, x + PGSIZE, ... in 64 bits */
  function AddrRun(x: Word, n: nat): (s: seq<Word>)
    ensures |s| == n
  {
    seq(n, i requires i >= 0 => (x + i * PGSIZE) % TWO64)
  }

  lemma WrapPages(x: int)
    ensures (x * PGSIZE) % TWO64 == x % 0x10_0000_0000_0000 * PGSIZE
  {
    var k, m := x / 0x10_0000_0000_0000, x % 0x10_0000_0000_0000;
    assert x * PGSIZE == k * TWO64 + m * PGSIZE;
  }

  lemma WrapVpn(f: nat, i: nat)
    ensures (f + i) % 0x10_0000_0000_0000 % VPNS == (f % VPNS + i) % VPNS
  {
    var k, m := (f + i) / 0x10_0000_0000_0000, (f + i) % 0x10_0000_0000_0000;
    assert f + i == (k * 0x200_0000) * VPNS + m;
    assert f == f / VPNS * VPNS + f % VPNS;
  }

  /** The i-th page address is page aligned, with page number b + i. */
  lemma NthAddr(first: Word, i: nat)
    requires Aligned(first)
    ensures var a := (first + i * PGSIZE) % TWO64;
      a == (first / PGSIZE + i) % 0x10_0000_0000_0000 * PGSIZE && Vpn(a) == NthVpn(Vpn(first), i)
  {
    WrapPages(first / PGSIZE + i);
    WrapVpn(first / PGSIZE, i);
  }

  lemma WrapCount(l: nat, f: nat, i: nat)
    requires l < 0x10_0000_0000_0000 && f < 0x10_0000_0000_0000 && i <= (l - f) % 0x10_0000_0000_0000
    ensures (f + i) % 0x10_0000_0000_0000 == l <==> i == (l - f) % 0x10_0000_0000_0000
  {
  }

  lemma NthIsLast(first: Word, last: Word, i: nat)
    requires Aligned(first) && Aligned(last) && i <= PagesTo(first, last)
    ensures (first + i * PGSIZE) % TWO64 == last <==> i == PagesTo(first, last)
  {
    var f, l := first / PGSIZE, last / PGSIZE;
    NthAddr(first, i);
    WrapPages(l - f);
    assert last - first == (l - f) * PGSIZE;
    WrapCount(l, f, i);
  }

  lemma SamePageOffset(pa: Word, i: nat)
    ensures Aligned((pa + i * PGSIZE) % TWO64) <==> Aligned(pa)
  {
    var x := pa + i * PGSIZE;
    var k, m := x / TWO64, x % TWO64;
    assert m == pa + PGSIZE * (i - k * 0x10_0000_0000_0000);
  }

  lemma NextPhys(x: int)
    ensures NextPageAddr(x % TWO64) == (x + PGSIZE) % TWO64
  {
    var k := x / TWO64;
    assert x == k * TWO64 + x % TWO64;
  }

  lemma RunStep(x: Word, n: nat, i: nat)
    requires i + 1 < n
    ensures AddrRun(x, n)[i + 1] == NextPageAddr(AddrRun(x, n)[i])
  {
    assert AddrRun(x, n)[i] == (x + i * PGSIZE) % TWO64;
    assert AddrRun(x, n)[i + 1] == (x + (i + 1) * PGSIZE) % TWO64;
    NextPhys(x + i * PGSIZE);
  }

  lemma RunAt(x: Word, n: nat, i: nat)
    requires i < n
    ensures AddrRun(x, n)[i] == (x + i * PGSIZE) % TWO64
  {
  }

  lemma NthTurn(first: Word, last: Word, pa: Word, perm: int, i: nat)
    requires Aligned(first) && Aligned(last) && i <= PagesTo(first, last)
    ensures var n := PagesTo(first, last) + 1;
      TurnOk(AddrRun(first, n), AddrRun(pa, n), last, RangeVpns(Vpn(first), n), RangePtes(pa, perm, n), pa, perm, i)
  {
    var n := PagesTo(first, last) + 1;
    RunAt(first, n, i);
    RunAt(pa, n, i);
    NthAddr(first, i);
    NthIsLast(first, last, i);
    SamePageOffset(pa, i);
    if i + 1 < n {
      RunStep(first, n, i);
      RunStep(pa, n, i);
    }
  }

  lemma LoopTurns(va: Word, pa: Word, sz: Word, perm: int) returns (addrs: seq<Word>, qa: seq<Word>)
    requires sz > 0
    ensures var n := PageCount(va, sz);
      && |addrs| == n && addrs[0] == PgRoundDown(va)
      && TurnsOk(addrs, qa, PgRoundDown((va + sz - 1) % TWO64), RangeVpns(Vpn(va), n), RangePtes(pa, perm, n), pa, perm)
  {
    var first: Word, last: Word, n := PgRoundDown(va), PgRoundDown((va + sz - 1) % TWO64), PageCount(va, sz);
    assert first / PGSIZE == va / PGSIZE;
    addrs, qa := AddrRun(first, n), AddrRun(pa, n);
    assert addrs[0] == first && qa[0] == pa;
    forall i | 0 <= i < n
      ensures TurnOk(addrs, qa, last, RangeVpns(Vpn(va), n), RangePtes(pa, perm, n), pa, perm, i)
    {
      NthTurn(first, last, pa, perm, i);
    }
  }

  /** kvmmap */
  method KvmMap(ram: Ram, pt: int, va: Word, pa: Word, sz: Word, perm: int) returns (r: Outcome)
    requires Rooted(ram.View(), pt)
    modifies ram
    ensures sz == 0 ==> r.Done? && ram.View() == old(ram.View())
    ensures sz > 0 ==>
      var n := PageCount(va, sz);
      var vs, ws := RangeVpns(Vpn(va), n), RangePtes(pa, perm, n);
      && (r.Done? <==> Aligned(pa) && CanMapList(old(ram.View()), pt, vs, n))
      && (r.Done? ==> MapsList(old(ram.View()), ram.View(), pt, vs, ws, n))
  {
    if sz == 0 {
      return Done;
    }
    var a: Word, last: Word := PgRoundDown(va), PgRoundDown((va + sz - 1) % TWO64);
    ghost var n := PageCount(va, sz);
    ghost var addrs, qa := LoopTurns(va, pa, sz, perm);
    r := MapPages(ram, pt, a, last, pa, perm, addrs, qa, RangeVpns(Vpn(va), n), RangePtes(pa, perm, n));
  }

  // ----- what mapping a range means

  /** m with n pages from b on mapped to the physical pages from pa on. */
  function WithRange(m: map<int, Word>, b: PageNo, pa: Word, perm: int, n: nat): (r: map<int, Word>)
  {
    map v | v in m.Keys + (set x: PageNo | 0 <= x < VPNS && Offset(x, b) < n) ::
      if 0 <= v < VPNS && Offset(v, b) < n then NthPte(pa, perm, Offset(v, b)) else m[v]
  }

  lemma OffsetOfNth(v: PageNo, b: PageNo, i: nat)
    requires i < VPNS
    ensures Offset(v, b) == i <==> v == NthVpn(b, i)
  {
  }

  lemma WithNext(m: map<int, Word>, b: PageNo, pa: Word, perm: int, i: nat)
    requires i < VPNS
    ensures WithRange(m, b, pa, perm, i)[NthVpn(b, i) := NthPte(pa, perm, i)] == WithRange(m, b, pa, perm, i + 1)
  {
    forall v: PageNo | true ensures Offset(v, b) == i <==> v == NthVpn(b, i) { OffsetOfNth(v, b, i); }
  }

  /** The table after kvmmap maps each page of the range, at a fixed distance, and is otherwise as before. */
  lemma {:induction false} RangeEntered(m: map<int, Word>, b: PageNo, pa: Word, perm: int, i: nat, n: nat)
    requires i <= n && i <= VPNS
    ensures Entered(m, RangeVpns(b, n), RangePtes(pa, perm, n), i) == WithRange(m, b, pa, perm, i)
    decreases i
  {
    if i > 0 {
      RangeEntered(m, b, pa, perm, i - 1, n);
      WithNext(m, b, pa, perm, i - 1);
    } else {
      assert WithRange(m, b, pa, perm, 0) == m;
    }
  }

  /**
   kvmmap does not stop at a page that is mapped already exactly when there is none in a range shorter
   than 2^27 pages.
  */
  lemma RangeFresh(m: map<int, Word>, b: PageNo, n: nat)
    ensures Fresh(m, RangeVpns(b, n), n) <==> n <= VPNS && forall v: PageNo :: Offset(v, b) < n ==> v !in m
  {
    var vs := RangeVpns(b, n);
    if n <= VPNS && forall v: PageNo :: Offset(v, b) < n ==> v !in m {
      forall j | 0 <= j < n ensures FreshAt(m, vs, j) {
        OffsetOfNth(vs[j], b, j);
        forall k | 0 <= k < j ensures vs[k] != vs[j] { OffsetOfNth(vs[k], b, k); }
      }
    }
    if n > VPNS {
      assert vs[0] == vs[VPNS];
      assert !FreshAt(m, vs, VPNS);
    } else if Fresh(m, vs, n) {
      forall v: PageNo | Offset(v, b) < n ensures v !in m {
        OffsetOfNth(v, b, Offset(v, b));
        assert FreshAt(m, vs, Offset(v, b));
      }
    }
  }

  // ----- the bytes of a range

  /** Page number v is that of one of the bytes va .. va + sz - 1, counted in 64 bits. */
  ghost predicate HoldsByte(va: Word, sz: Word, v: PageNo) {
    exists k :: ByteIn(va, sz, v, k)
  }

  predicate ByteIn(va: Word, sz: Word, v: PageNo, k: int) {
    0 <= k < sz && Vpn((va + k) % TWO64) == v
  }

  /** The pages that kvmmap maps are exactly those that hold one of the bytes. */
  ghost predicate CoversBytes(va: Word, sz: Word)
    requires sz > 0
  {
    forall v: PageNo :: Offset(v, Vpn(va)) < PageCount(va, sz) <==> HoldsByte(va, sz, v)
  }

  lemma WrapRound(f: int, x: nat)
    requires Aligned(f) && 0 <= f < TWO64 && x < 2 * TWO64
    ensures (PgRoundDown((f + x) % TWO64) - f) % TWO64 / PGSIZE == x % TWO64 / PGSIZE
  {
    var y := x % TWO64;
    assert (f + x) % TWO64 == (f + y) % TWO64 by { assert x == y || x == y + TWO64; }
    var z := if f + y < TWO64 then f + y else f + y - TWO64;
    assert (f + y) % TWO64 == z;
    assert PgRoundDown(z) - f == y - y % PGSIZE || PgRoundDown(z) - f == y - y % PGSIZE - TWO64;
  }

  lemma CountPages(va: Word, sz: Word)
    requires sz > 0
    ensures PageCount(va, sz) == (va % PGSIZE + sz - 1) % TWO64 / PGSIZE + 1
  {
    WrapRound(PgRoundDown(va), va % PGSIZE + sz - 1);
  }

  /** Byte k of the range lies in its page number (va % PGSIZE + k) / PGSIZE. */
  lemma ByteAt(va: Word, k: nat)
    ensures Vpn((va + k) % TWO64) == NthVpn(Vpn(va), (va % PGSIZE + k) / PGSIZE)
  {
    var i := (va % PGSIZE + k) / PGSIZE;
    NthAddr(PgRoundDown(va), i);
    SamePage(va + k, PgRoundDown(va) + i * PGSIZE);
    assert Vpn(PgRoundDown(va)) == Vpn(va);
  }

  lemma SamePage(x: nat, y: nat)
    requires Aligned(y) && y <= x < y + PGSIZE
    ensures Vpn(x % TWO64) == Vpn(y % TWO64)
  {
    var q := y / TWO64;
    assert y % TWO64 == y - q * TWO64 && (y - q * TWO64) % PGSIZE == 0;
    assert x % TWO64 == x - q * TWO64;
  }

  lemma NthOffset(b: PageNo, i: nat)
    ensures Offset(NthVpn(b, i), b) <= i
  {
    var q := (b + i) / VPNS;
    assert NthVpn(b, i) == b + i - q * VPNS;
    assert Offset(NthVpn(b, i), b) == (i - q * VPNS) % VPNS;
  }

  lemma PageHoldsByte(va: Word, sz: Word, v: PageNo)
    requires sz > 0 && va % PGSIZE + sz <= TWO64 && Offset(v, Vpn(va)) < PageCount(va, sz)
    ensures HoldsByte(va, sz, v)
  {
    var i := Offset(v, Vpn(va));
    CountPages(va, sz);
    var k := if i == 0 then 0 else i * PGSIZE - va % PGSIZE;
    assert (va % PGSIZE + k) / PGSIZE == i;
    ByteAt(va, k);
    OffsetOfNth(v, Vpn(va), i);
    assert ByteIn(va, sz, v, k);
  }

  lemma ByteInPage(va: Word, sz: Word, v: PageNo, k: nat)
    requires sz > 0 && va % PGSIZE + sz <= TWO64 && ByteIn(va, sz, v, k)
    ensures Offset(v, Vpn(va)) < PageCount(va, sz)
  {
    CountPages(va, sz);
    ByteAt(va, k);
    NthOffset(Vpn(va), (va % PGSIZE + k) / PGSIZE);
  }

  /** With more bytes than 64 bits can count from the first page on, kvmmap maps that page alone. */
  lemma OnePageOnly(va: Word, sz: Word)
    requires sz > 0 && va % PGSIZE + sz > TWO64
    ensures PageCount(va, sz) == 1 && !CoversBytes(va, sz)
  {
    CountPages(va, sz);
    var v, k := NthVpn(Vpn(va), 1), PGSIZE - va % PGSIZE;
    ByteAt(va, k);
    OffsetOfNth(v, Vpn(va), 1);
    assert ByteIn(va, sz, v, k);
  }

  /**
   kvmmap maps the pages that hold a byte of the range, if and only if 64 bits can count the bytes from
   its first page on.
  */
  lemma RangeCovers(va: Word, sz: Word)
    requires sz > 0
    ensures CoversBytes(va, sz) <==> va % PGSIZE + sz <= TWO64
  {
    if va % PGSIZE + sz <= TWO64 {
      forall v: PageNo | true ensures Offset(v, Vpn(va)) < PageCount(va, sz) <==> HoldsByte(va, sz, v) {
        if Offset(v, Vpn(va)) < PageCount(va, sz) { PageHoldsByte(va, sz, v); }
        if k :| ByteIn(va, sz, v, k) { ByteInPage(va, sz, v, k); }
      }
    } else {
      OnePageOnly(va, sz);
    }
  }
}
