/** include/riscv.h and include/memlayout.h: page, PTE and address arithmetic on 64-bit words. */
module Riscv {
  const TWO64 := 0x1_0000_0000_0000_0000
  const TWO54 := 0x40_0000_0000_0000

  type Word = w: int | 0 <= w < TWO64

  const PGSIZE := 4096
  const MAXVA := 0x40_0000_0000       // 1 << (9 + 9 + 9 + 12 - 1)
  const KERNBASE := 0x8000_0000
  const PHYSTOP := 0x8800_0000        // KERNBASE + 128 MB
  const UART0 := 0x1000_0000
  const TRAMPOLINE := MAXVA - PGSIZE
  const TRAPFRAME := TRAMPOLINE - PGSIZE
  const NPROC := 64

  /** KSTACK(p): the stack of slot p, one page below a guard page. */
  function KStack(p: nat): (r: int) {
    TRAMPOLINE - (p + 1) * 2 * PGSIZE
  }

  predicate Aligned(a: int) {
    a % PGSIZE == 0
  }

  predicate IsMultiple(a: int, n: int) {
    a == n * PGSIZE
  }

  /** The same as Aligned, without a remainder. */
  ghost predicate PageAddr(a: int) {
    exists n :: IsMultiple(a, n)
  }

  lemma PageAddrs(a: int)
    ensures PageAddr(a) <==> Aligned(a)
  {
    if Aligned(a) { assert IsMultiple(a, a / PGSIZE); }
  }

  function PgRoundDown(a: Word): (r: Word) {
    a - a % PGSIZE
  }

  function PgRoundUp(a: Word): (r: Word) {
    PgRoundDown((a + PGSIZE - 1) % TWO64)
  }

  // ----- page table entries; a shift is a division or multiplication, a mask a remainder

  const PTE_V := 1
  const PTE_R := 2
  const PTE_W := 4
  const PTE_X := 8

  predicate Bit(w: Word, b: Word)
    requires b > 0
  {
    w / b % 2 == 1
  }

  predicate Valid(pte: Word) {
    Bit(pte, PTE_V)
  }

  /** pte & (PTE_R | PTE_W | PTE_X) */
  predicate Permits(pte: Word) {
    Bit(pte, PTE_R) || Bit(pte, PTE_W) || Bit(pte, PTE_X)
  }

  /** PA2PTE: ((pa >> 12) << 10) */
  function Pa2Pte(pa: Word): (r: Word) {
    pa / 4096 * 1024
  }

  /** PTE2PA: ((pte >> 10) << 12), in 64 bits */
  function Pte2Pa(pte: Word): (r: Word) {
    pte / 1024 * 4096 % TWO64
  }

  /** a | b */
  function Or(a: nat, b: nat): (r: nat)
    decreases a + b
  {
    if a == 0 then b
    else if b == 0 then a
    else 2 * Or(a / 2, b / 2) + (if a % 2 == 1 || b % 2 == 1 then 1 else 0)
  }

  /** PA2PTE(pa) | perm | PTE_V, where the int perm is converted to 64 bits */
  function LeafPte(pa: Word, perm: int): (r: Word) {
    Or(Or(Pa2Pte(pa), perm % TWO64), PTE_V) % TWO64
  }

  /** PA2PTE(pa) | PTE_V */
  function PointerPte(pa: Word): (r: Word) {
    Pa2Pte(pa) + PTE_V
  }

  lemma OrOne(a: nat)
    ensures Or(a, 1) == a - a % 2 + 1
  {
    assert Or(a / 2, 0) == a / 2;
  }

  lemma OddWord(x: nat)
    ensures Valid((x - x % 2 + 1) % TWO64)
  {
    var y := x - x % 2 + 1;
    EvenPart(y / TWO64 * 0x8000_0000_0000_0000, y % TWO64);
    assert y == 2 * (y / TWO64 * 0x8000_0000_0000_0000) + y % TWO64 && y == 2 * (x / 2) + 1;
  }

  lemma OrOneValid(x: nat)
    ensures Valid(Or(x, 1) % TWO64)
  {
    OrOne(x);
    OddWord(x);
  }

  /** Every entry that map_page writes is valid, whatever the permissions. */
  lemma LeafValid(pa: Word, perm: int)
    ensures Valid(LeafPte(pa, perm))
  {
    OrOneValid(Or(Pa2Pte(pa), perm % TWO64));
  }

  function Pow2(k: nat): (r: nat)
    ensures r > 0
  {
    if k == 0 then 1 else 2 * Pow2(k - 1)
  }

  /** n << k */
  function Shift(n: nat, k: nat): (r: nat) {
    if k == 0 then n else 2 * Shift(n, k - 1)
  }

  lemma OrHalves(x: nat, f: nat)
    ensures Or(2 * x, f) == 2 * Or(x, f / 2) + f % 2
  {
    assert Or(0, f / 2) == f / 2 && Or(x, 0) == x;
  }

  /** The upper bits of an or are the or of the upper bits, and below k bits of the second number it is that number. */
  lemma {:induction false} OrShift(n: nat, q: nat, f: nat, k: nat)
    requires f < Pow2(k)
    ensures Or(Shift(n, k), Shift(q, k) + f) == Shift(Or(n, q), k) + f
  {
    if k > 0 {
      OrShift(n, q, f / 2, k - 1);
      OrHalves(Shift(n, k - 1), Shift(q, k) + f);
      EvenHalf(Shift(q, k - 1), f);
    }
  }

  lemma EvenHalf(y: nat, f: nat)
    ensures (2 * y + f) / 2 == y + f / 2 && (2 * y + f) % 2 == f % 2
  {
  }

  lemma {:induction false} ShiftMul(n: nat, k: nat)
    ensures Shift(n, k) == n * Pow2(k)
  {
    if k > 0 {
      ShiftMul(n, k - 1);
      assert n * (2 * Pow2(k - 1)) == 2 * (n * Pow2(k - 1));
    }
  }

  lemma {:induction false} OrBounds(a: nat, b: nat, k: nat)
    ensures a <= Or(a, b) && b <= Or(a, b)
    ensures Or(a, b) < Pow2(k) <==> a < Pow2(k) && b < Pow2(k)
    decreases k
  {
    if k == 0 {
      OrAtLeast(a, b);
    } else {
      OrBounds(a / 2, b / 2, k - 1);
    }
  }

  lemma {:induction false} OrAtLeast(a: nat, b: nat)
    ensures a <= Or(a, b) && b <= Or(a, b)
    decreases a + b
  {
    if a > 0 && b > 0 { OrAtLeast(a / 2, b / 2); }
  }

  lemma OrFlags(n: nat, q: nat, f: nat)
    requires f < 1024
    ensures Or(Or(n * 1024, q * 1024 + f), 1) == Or(n, q) * 1024 + (f - f % 2 + 1)
  {
    assert Pow2(10) == 1024;
    ShiftMul(n, 10);
    ShiftMul(q, 10);
    ShiftMul(Or(n, q), 10);
    OrShift(n, q, f, 10);
    OrOne(Or(n, q) * 1024 + f);
    Unpack(Or(n, q), f);
  }

  /** The page number in the entry for pa and perm; bits of perm beyond the flags end up there. */
  function EntryPage(pa: Word, perm: int): (n: nat) {
    Or(pa / 4096, perm % TWO64 / 1024)
  }

  function EntryFlags(perm: int): (f: nat)
    ensures f < 1024
  {
    var f := perm % TWO64 % 1024;
    f - f % 2 + PTE_V
  }

  lemma PageFits(pa: Word, perm: int)
    ensures EntryPage(pa, perm) < TWO54
    ensures EntryPage(pa, perm) < 0x1000_0000_0000 <==> pa < 0x100_0000_0000_0000 && perm % TWO64 < TWO54
  {
    Powers();
    OrBounds(pa / 4096, perm % TWO64 / 1024, 54);
    OrBounds(pa / 4096, perm % TWO64 / 1024, 44);
  }

  lemma Powers()
    ensures Pow2(44) == 0x1000_0000_0000 && Pow2(54) == TWO54
  {
    assert Pow2(11) == 0x800 && Pow2(22) == 0x40_0000 && Pow2(33) == 0x2_0000_0000 && Pow2(44) == 0x1000_0000_0000;
  }

  /** The parts of an entry, for every address and every int perm. */
  lemma LeafParts(pa: Word, perm: int)
    ensures LeafPte(pa, perm) == EntryPage(pa, perm) * 1024 + EntryFlags(perm)
  {
    var w := perm % TWO64;
    OrFlags(pa / 4096, w / 1024, w % 1024);
    PageFits(pa, perm);
  }

  /** Within the ten flag bits the entry is a sum. */
  lemma LeafSum(pa: Word, perm: int)
    requires 0 <= perm < 1024
    ensures LeafPte(pa, perm) == Pa2Pte(pa) + (perm - perm % 2 + PTE_V)
  {
    LeafParts(pa, perm);
    assert EntryPage(pa, perm) == pa / 4096;
  }

  lemma EvenPart(m: int, q: int)
    ensures (2 * m + q) % 2 == q % 2
  {
  }

  lemma Unpack(n: nat, f: nat)
    requires f < 1024
    ensures (n * 1024 + f) / 1024 == n && (n * 1024 + f) % 1024 == f && (n * 1024 + f) % 2 == f % 2
  {
    EvenPart(n * 512, f);
  }

  lemma PteRoundTrip(pa: Word, perm: int)
    requires 0 <= perm < 1024
    ensures var pte := LeafPte(pa, perm);
      && Valid(pte)
      && Pte2Pa(pte) == PgRoundDown(pa)
      && pte % 1024 == perm - perm % 2 + PTE_V
  {
    var n := pa / 4096;
    LeafSum(pa, perm);
    Unpack(n, perm - perm % 2 + PTE_V);
    assert pa == n * 4096 + pa % 4096;
  }

  lemma LowBit2(n: nat, f: nat)
    ensures (n * 1024 + f) / 2 % 2 == f / 2 % 2
  {
    assert n * 1024 + f == 2 * (n * 512 + f / 2) + f % 2;
    assert (n * 1024 + f) / 2 == 2 * (n * 256) + f / 2;
    EvenPart(n * 256, f / 2);
  }

  lemma LowBit4(n: nat, f: nat)
    ensures (n * 1024 + f) / 4 % 2 == f / 4 % 2
  {
    assert n * 1024 + f == 4 * (n * 256 + f / 4) + f % 4;
    assert (n * 1024 + f) / 4 == 2 * (n * 128) + f / 4;
    EvenPart(n * 128, f / 4);
  }

  lemma LowBit8(n: nat, f: nat)
    ensures (n * 1024 + f) / 8 % 2 == f / 8 % 2
  {
    assert n * 1024 + f == 8 * (n * 128 + f / 8) + f % 8;
    assert (n * 1024 + f) / 8 == 2 * (n * 64) + f / 8;
    EvenPart(n * 64, f / 8);
  }

  lemma FlagsOfSum(n: nat, f: nat)
    requires n * 1024 + f < TWO64
    ensures Bit(n * 1024 + f, PTE_R) == Bit(f, PTE_R)
    ensures Bit(n * 1024 + f, PTE_W) == Bit(f, PTE_W)
    ensures Bit(n * 1024 + f, PTE_X) == Bit(f, PTE_X)
  {
    LowBit2(n, f);
    LowBit4(n, f);
    LowBit8(n, f);
  }

  /** The permission bits of the entry are those of perm. */
  lemma FlagsOfLeaf(pa: Word, perm: int)
    ensures var pte, w := LeafPte(pa, perm), perm % TWO64;
      && Bit(pte, PTE_R) == Bit(w, PTE_R)
      && Bit(pte, PTE_W) == Bit(w, PTE_W)
      && Bit(pte, PTE_X) == Bit(w, PTE_X)
  {
    var w := perm % TWO64;
    LeafParts(pa, perm);
    FlagsOfSum(EntryPage(pa, perm), EntryFlags(perm));
    FlagsOfSum(w / 1024, w % 1024);
    SameUpperFlags(w % 1024);
  }

  lemma SameUpperFlags(f: nat)
    requires f < 1024
    ensures var g := f - f % 2 + 1; g / 2 == f / 2 && g / 4 == f / 4 && g / 8 == f / 8
  {
  }

  lemma PointerIsNoLeaf(pa: Word)
    requires PageAddr(pa)
    ensures Valid(PointerPte(pa)) && !Permits(PointerPte(pa)) && Pte2Pa(PointerPte(pa)) == pa
  {
    PageAddrs(pa);
    LeafSum(pa, 0);
    PteRoundTrip(pa, 0);
    FlagsOfLeaf(pa, 0);
  }

  // ----- virtual page numbers

  const VPNS := 0x800_0000            // 2^27

  /** The 27 bits of va that the page-table walk looks at. */
  function Vpn(va: Word): (v: int)
    ensures 0 <= v < VPNS
  {
    va / 4096 % VPNS
  }

  /** VPN_MASK(va, level) */
  function VpnMask(va: Word, level: nat): (i: int)
    requires level <= 2
    ensures 0 <= i < 512
  {
    match level
    case 0 => va / 0x1000 % 512
    case 1 => va / 0x20_0000 % 512
    case 2 => va / 0x4000_0000 % 512
  }

  function Index(vpn: int, level: nat): (i: int)
    requires 0 <= vpn < VPNS && level <= 2
    ensures 0 <= i < 512
  {
    match level
    case 0 => vpn % 512
    case 1 => vpn / 512 % 512
    case 2 => vpn / 0x4_0000
  }

  lemma PagesOf2MB(va: nat)
    ensures va / 0x20_0000 == va / 4096 / 512
  {
    var n := va / 4096;
    assert va == n * 4096 + va % 4096;
    assert n == n / 512 * 512 + n % 512;
  }

  lemma PagesOf1GB(va: nat)
    ensures va / 0x4000_0000 == va / 4096 / 0x4_0000
  {
    var n := va / 4096;
    assert va == n * 4096 + va % 4096;
    assert n == n / 0x4_0000 * 0x4_0000 + n % 0x4_0000;
  }

  lemma Split512(x: nat, d: nat)
    requires d < 512
    ensures (512 * x + d) / 512 == x && (512 * x + d) % 512 == d
  {
  }

  lemma SplitTop(x: nat, d: nat)
    requires d < 0x4_0000
    ensures (0x4_0000 * x + d) / 0x4_0000 == x
  {
  }

  /** Multiples of 2^18 do not reach the low nine bits. */
  lemma LowNine(q: nat, x: nat)
    ensures (q * 0x4_0000 + x) % 512 == x % 512
  {
    Split512(q * 512 + x / 512, x % 512);
  }

  /** The middle nine bits of a page number are among its low 27. */
  lemma MiddleBits(n: nat, q: nat, r: nat)
    requires n == q * VPNS + r && r < VPNS
    ensures n / 512 % 512 == r / 512 % 512
  {
    Split512(q * 0x4_0000 + r / 512, r % 512);
    assert n == 512 * (q * 0x4_0000 + r / 512) + r % 512;
    LowNine(q, r / 512);
  }

  lemma TopBits(n: nat, q: nat, r: nat)
    requires n == q * VPNS + r && r < VPNS
    ensures n / 0x4_0000 % 512 == r / 0x4_0000
  {
    SplitTop(q * 512 + r / 0x4_0000, r % 0x4_0000);
    assert n == 0x4_0000 * (q * 512 + r / 0x4_0000) + r % 0x4_0000;
    Split512(q, r / 0x4_0000);
  }

  lemma MaskIsIndex(va: Word, level: nat)
    requires level <= 2
    ensures VpnMask(va, level) == Index(Vpn(va), level)
  {
    var n := va / 4096;
    match level
    case 0 =>
    case 1 =>
      PagesOf2MB(va);
      MiddleBits(n, n / VPNS, n % VPNS);
    case 2 =>
      PagesOf1GB(va);
      TopBits(n, n / VPNS, n % VPNS);
  }
}
