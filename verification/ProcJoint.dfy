/**
 The process protocol and physical memory in one run: the page handling of create_process and
 wait_process happens at the write that changes the slot, whatever the other CPUs do.
*/
module ProcJoint {
  import opened Prelude
  import opened Riscv
  import opened ProcModel
  import opened ProcInvariants
  import opened ProcHistory
  import opened ProcInduction
  import opened ProcTheorems
  import opened PageTree
  import opened Heap
  import opened AddressSpace
  import opened PhysMem
  import opened KernelStacks
  import opened DestroyTree
  import opened ProcPages
  import opened ProcMemory
  import opened ProcPool

  /** The kernel's state, its memory, and the trapframe and pagetable fields of proc[]. */
  datatype Joint = Joint(s: State, h: Heap, slots: seq<Slot>)

  /** What main has set up once and for all. */
  datatype Setup = Setup(ker: Kernel, end: Word, trampoline: Word)

  /** alloc_process has returned, free_process has run on a slot it may be called on, or memory is as before. */
  ghost predicate HeapFollows(u: Setup, w: Write, a: Joint, b: Joint)
    requires WriteFits(w, |a.slots|)
  {
    match w
    case Alloc(i) => exists tf, pt :: Fills(u, a, b, i, tf, pt)
    case Free(i, _) =>
      FreeReady(a.h, a.slots[i].trapframe, a.slots[i].pagetable) ==> Empties(a, b, i)
    case _ => b.h == a.h && b.slots == a.slots
  }

  ghost predicate Fills(u: Setup, a: Joint, b: Joint, i: nat, tf: int, pt: int)
    requires i < |a.slots|
  {
    AllocatedProcess(a.h, b.h, u.trampoline, tf, pt) && b.slots == a.slots[i := Slot(tf, pt)]
  }

  ghost predicate Empties(a: Joint, b: Joint, i: nat)
    requires i < |a.slots| && FreeReady(a.h, a.slots[i].trapframe, a.slots[i].pagetable)
  {
    && FreedProcess(a.h, b.h, a.slots[i].trapframe, a.slots[i].pagetable)
    && b.slots == a.slots[i := Slot(0, 0)]
  }

  ghost predicate JointStep(u: Setup, a: Joint, e: Event, b: Joint) {
    && StepTo(a.s, e, b.s) && |a.slots| == |a.s.procs| && Code(a.s, e.cpu, e.ch).Do?
    && HeapFollows(u, Code(a.s, e.cpu, e.ch).w, a, b)
  }

  // ----- the invariant

  /** A slot has its pages exactly while it is in use, and its page table is the one alloc_process made. */
  ghost predicate SlotJoint(u: Setup, j: Joint, i: nat)
    requires i < |j.slots| == |j.s.procs|
  {
    && (ProcPool.Live(j.slots[i]) <==> j.s.procs[i].state != UNUSED)
    && (ProcPool.Live(j.slots[i]) ==>
          j.slots[i].pagetable in j.h.trees && MapOf(j.h, j.slots[i].pagetable) == ProcMapping(u.trampoline))
  }

  ghost predicate JointOk(u: Setup, j: Joint) {
    && |j.slots| == |j.s.procs| && PoolOk(j.h, u.ker, j.slots) && Manages(j.h.pages, u.end)
    && forall i :: 0 <= i < |j.slots| ==> SlotJoint(u, j, i)
  }

  /** The pages there are for processes. */
  function Total(j: Joint): (n: nat) {
    |j.h.free| + 4 * LiveCount(j.slots)
  }

  // ----- what a step does to one slot

  /** Only Alloc and Free take a slot into use and out of it. */
  lemma UseFollows(s: State, t: Tid, th: Thread, cur: set<Lock>, w: Write, op: Op, s': State, p: nat)
    requires Writes(s, t, th, cur, w, op, s') && p < |s.procs|
    ensures s'.procs[p].state != UNUSED <==>
              if w.Alloc? && w.i == p then true
              else if w.Free? && w.i == p then false
              else s.procs[p].state != UNUSED
    ensures w.Alloc? && w.i == p ==> s.procs[p].state == UNUSED
    ensures w.Free? && w.i == p ==> s.procs[p].state == ZOMBIE
  {
  }

  lemma SlotStaysJoint(h: Heap, h': Heap, s: Slot, tf: int, pt: int)
    requires Took(h, h', tf, pt) && s.pagetable in h.trees
    ensures s.pagetable in h'.trees && s.pagetable != pt && h'.trees[s.pagetable] == h.trees[s.pagetable]
    ensures MapOf(h', s.pagetable) == MapOf(h, s.pagetable)
  {
  }

  /** The step as seen by the table of pages. */
  ghost predicate UseStep(w: Write, a: Joint, b: Joint, p: nat)
    requires p < |a.s.procs| == |b.s.procs|
  {
    b.s.procs[p].state != UNUSED <==>
      if w.Alloc? && w.i == p then true
      else if w.Free? && w.i == p then false
      else a.s.procs[p].state != UNUSED
  }

  lemma FilledSlot(u: Setup, a: Joint, b: Joint, i: nat, tf: int, pt: int, p: nat)
    requires JointOk(u, a) && i < |a.slots| && Fills(u, a, b, i, tf, pt) && p < |a.slots| == |b.s.procs| == |a.s.procs|
    requires UseStep(Alloc(i), a, b, p)
    ensures SlotJoint(u, b, p)
  {
    assert SlotJoint(u, a, p);
    if p != i && ProcPool.Live(a.slots[p]) { SlotStaysJoint(a.h, b.h, a.slots[p], tf, pt); }
  }

  lemma FillsOk(u: Setup, a: Joint, b: Joint, i: nat, tf: int, pt: int)
    requires JointOk(u, a) && i < |a.slots| && Fills(u, a, b, i, tf, pt) && |b.s.procs| == |a.s.procs|
    requires a.s.procs[i].state == UNUSED && forall p: nat :: p < |a.s.procs| ==> UseStep(Alloc(i), a, b, p)
    ensures JointOk(u, b) && Total(b) == Total(a) && |b.slots| == |a.slots|
  {
    assert SlotJoint(u, a, i);
    PoolTook(a.h, b.h, u.ker, a.slots, i, tf, pt);
    LiveCountUpdate(a.slots, i, Slot(tf, pt));
    forall p | 0 <= p < |b.slots| ensures SlotJoint(u, b, p) {
      assert UseStep(Alloc(i), a, b, p);
      FilledSlot(u, a, b, i, tf, pt, p);
    }
  }

  lemma EmptiedSlot(u: Setup, a: Joint, b: Joint, i: nat, q: nat, p: nat)
    requires JointOk(u, a) && i < |a.slots| && GaveBack(a.h, b.h, a.slots[i]) && b.slots == a.slots[i := Slot(0, 0)]
    requires p < |a.slots| == |b.s.procs| == |a.s.procs| && UseStep(ProcModel.Free(i, q), a, b, p)
    ensures SlotJoint(u, b, p)
  {
    assert SlotJoint(u, a, p);
    if p != i && ProcPool.Live(a.slots[p]) {
      assert Apart(a.slots[p], a.slots[i]);
      OtherTreeStays(a.h, b.h, a.slots[i], a.slots[p].pagetable);
    }
  }

  lemma EmptiedPool(u: Setup, a: Joint, b: Joint, i: nat)
    requires JointOk(u, a) && i < |a.slots| && FreeReady(a.h, a.slots[i].trapframe, a.slots[i].pagetable)
    requires Empties(a, b, i) && ProcPool.Live(a.slots[i])
    ensures GaveBack(a.h, b.h, a.slots[i]) && PoolOk(b.h, u.ker, b.slots) && Total(b) == Total(a)
  {
    FreedGaveBack(a.h, b.h, u.ker, a.slots, i);
    GivesBack(a.h, b.h, a.slots[i]);
    PoolGaveBack(a.h, b.h, u.ker, a.slots, i);
    LiveCountUpdate(a.slots, i, Slot(0, 0));
  }

  lemma EmptiesOk(u: Setup, a: Joint, b: Joint, i: nat, q: nat)
    requires JointOk(u, a) && i < |a.slots| && FreeReady(a.h, a.slots[i].trapframe, a.slots[i].pagetable)
    requires Empties(a, b, i) && |b.s.procs| == |a.s.procs| && a.s.procs[i].state != UNUSED
    requires forall p: nat :: p < |a.s.procs| ==> UseStep(ProcModel.Free(i, q), a, b, p)
    ensures GaveBack(a.h, b.h, a.slots[i]) && JointOk(u, b) && Total(b) == Total(a) && |b.slots| == |a.slots|
  {
    assert SlotJoint(u, a, i);
    EmptiedPool(u, a, b, i);
    forall p | 0 <= p < |b.slots| ensures SlotJoint(u, b, p) {
      assert UseStep(ProcModel.Free(i, q), a, b, p);
      EmptiedSlot(u, a, b, i, q, p);
    }
  }

  // ----- one step

  /** free_process is called only on a slot that owns its pages: what it relies on holds at every call. */
  lemma FreeIsReady(u: Setup, a: Joint, e: Event, s': State)
    requires JointOk(u, a) && Inv(a.s) && StepTo(a.s, e, s')
    ensures Code(a.s, e.cpu, e.ch).Do? && var w := Code(a.s, e.cpu, e.ch).w;
      w.Free? ==>
        && w.i < |a.slots| && ProcPool.Live(a.slots[w.i])
        && FreeReady(a.h, a.slots[w.i].trapframe, a.slots[w.i].pagetable)
  {
    GoodWrites(a.s, e, s');
    var w := Code(a.s, e.cpu, e.ch).w;
    if w.Free? {
      assert SlotJoint(u, a, w.i);
      SlotReady(a.h, u.ker, a.slots, w.i);
    }
  }

  lemma UseSteps(u: Setup, a: Joint, e: Event, b: Joint)
    requires Inv(a.s) && StepTo(a.s, e, b.s)
    ensures Code(a.s, e.cpu, e.ch).Do? && |b.s.procs| == |a.s.procs|
    ensures forall p: nat :: p < |a.s.procs| ==> UseStep(Code(a.s, e.cpu, e.ch).w, a, b, p)
    ensures Code(a.s, e.cpu, e.ch).w.Alloc? ==> a.s.procs[Code(a.s, e.cpu, e.ch).w.i].state == UNUSED
    ensures Code(a.s, e.cpu, e.ch).w.Free? ==> a.s.procs[Code(a.s, e.cpu, e.ch).w.i].state != UNUSED
  {
    GoodWrites(a.s, e, b.s);
    var ins, t := Code(a.s, e.cpu, e.ch), a.s.cpus[e.cpu].run;
    forall p: nat | p < |a.s.procs| ensures UseStep(ins.w, a, b, p) {
      UseFollows(a.s, t, Th(a.s, t), HeldBy(a.s, e.cpu), ins.w, ins.op, b.s, p);
    }
  }

  lemma KeepsJoint(u: Setup, a: Joint, e: Event, b: Joint)
    requires JointOk(u, a) && Inv(a.s) && JointStep(u, a, e, b)
    ensures JointOk(u, b) && Total(b) == Total(a) && |b.slots| == |a.slots|
  {
    UseSteps(u, a, e, b);
    FreeIsReady(u, a, e, b.s);
    match Code(a.s, e.cpu, e.ch).w
    case Alloc(i) =>
      var tf, pt :| Fills(u, a, b, i, tf, pt);
      FillsOk(u, a, b, i, tf, pt);
    case Free(i, q) => EmptiesOk(u, a, b, i, q);
    case _ =>
      forall p | 0 <= p < |b.slots| ensures SlotJoint(u, b, p) {
        assert SlotJoint(u, a, p) && UseStep(Code(a.s, e.cpu, e.ch).w, a, b, p);
      }
  }

  // ----- runs

  ghost predicate JointStepAt(u: Setup, js: seq<Joint>, events: seq<Event>, i: nat)
    requires i < |events| && |js| == |events| + 1
  {
    JointStep(u, js[i], events[i], js[i + 1])
  }

  ghost predicate JointRun(u: Setup, js: seq<Joint>, events: seq<Event>) {
    && |js| == |events| + 1
    && Boot(js[0].s) && JointOk(u, js[0])
    && forall i :: 0 <= i < |events| ==> JointStepAt(u, js, events, i)
  }

  /** The invariants, and what the joint state j has in common with the first one. */
  ghost predicate BothOk(u: Setup, j: Joint, j0: Joint) {
    Inv(j.s) && JointOk(u, j) && Total(j) == Total(j0) && |j.slots| == |j0.slots|
  }

  lemma KeepsBoth(u: Setup, a: Joint, e: Event, b: Joint, j0: Joint)
    requires BothOk(u, a, j0) && JointStep(u, a, e, b)
    ensures BothOk(u, b, j0)
  {
    KeepsJoint(u, a, e, b);
    KeepsInv(a.s, e.cpu, e.ch, b.s);
  }

  lemma StartsOk(u: Setup, js: seq<Joint>, events: seq<Event>)
    requires JointRun(u, js, events)
    ensures BothOk(u, js[0], js[0])
  {
    BootInv(js[0].s);
  }

  lemma KeepsBothAt(u: Setup, js: seq<Joint>, events: seq<Event>, i: nat, j0: Joint)
    requires i < |events| && |js| == |events| + 1 && JointStepAt(u, js, events, i) && BothOk(u, js[i], j0)
    ensures BothOk(u, js[i + 1], j0)
  {
    KeepsBoth(u, js[i], events[i], js[i + 1], j0);
  }

  lemma {:induction false} StepsOk(u: Setup, js: seq<Joint>, events: seq<Event>, i: nat, j0: Joint)
    requires |js| == |events| + 1 && BothOk(u, js[0], j0) && i < |js|
    requires forall k :: 0 <= k < i ==> JointStepAt(u, js, events, k)
    ensures BothOk(u, js[i], j0)
  {
    if i > 0 {
      StepsOk(u, js, events, i - 1, j0);
      KeepsBothAt(u, js, events, i - 1, j0);
    }
  }

  lemma JointRunOk(u: Setup, js: seq<Joint>, events: seq<Event>, i: nat)
    requires JointRun(u, js, events) && i < |js|
    ensures BothOk(u, js[i], js[0])
  {
    StartsOk(u, js, events);
    StepsOk(u, js, events, i, js[0]);
  }

  /** Slots in any state but UNUSED. */
  function InUse(s: State): (r: set<int>) {
    set p | 0 <= p < |s.procs| && s.procs[p].state != UNUSED
  }

  lemma {:induction false} LiveSet(slots: seq<Slot>)
    ensures LiveCount(slots) == |set i | 0 <= i < |slots| && ProcPool.Live(slots[i])|
  {
    if slots != [] {
      var n := |slots| - 1;
      var less := set i | 0 <= i < n && ProcPool.Live(slots[..n][i]);
      LiveSet(slots[..n]);
      assert (set i | 0 <= i < |slots| && ProcPool.Live(slots[i])) ==
          less + if ProcPool.Live(slots[n]) then {n} else {};
    }
  }

  /**
   At every moment of every run, on any number of CPUs, memory is partitioned among the free list,
   the kernel and the slots in use, and the free pages are four fewer for every slot in use.
  */
  lemma FreePagesByUse(u: Setup, js: seq<Joint>, events: seq<Event>, i: nat)
    requires JointRun(u, js, events) && i < |js|
    ensures PoolOk(js[i].h, u.ker, js[i].slots)
    ensures forall p :: 0 <= p < |js[i].slots| == |js[i].s.procs| ==>
              (ProcPool.Live(js[i].slots[p]) <==> js[i].s.procs[p].state != UNUSED)
    ensures |js[i].h.free| == Total(js[0]) - 4 * |InUse(js[i].s)|
  {
    JointRunOk(u, js, events, i);
    var j := js[i];
    forall p | 0 <= p < |j.slots| ensures ProcPool.Live(j.slots[p]) <==> j.s.procs[p].state != UNUSED {
      assert SlotJoint(u, j, p);
    }
    LiveSet(j.slots);
    assert InUse(j.s) == set p | 0 <= p < |j.slots| && ProcPool.Live(j.slots[p]);
  }

  /** A reap puts four pages on the free list that were in use until then, and no others. */
  lemma ReapGivesBack(u: Setup, js: seq<Joint>, events: seq<Event>, i: nat) returns (k: nat)
    requires JointRun(u, js, events) && i < |events| && js[i + 1].s.reaps != js[i].s.reaps
    ensures ReturnsPages(js[i], js[i + 1], k)
  {
    var a, e, b := js[i], events[i], js[i + 1];
    JointRunOk(u, js, events, i);
    assert JointStepAt(u, js, events, i);
    UseSteps(u, a, e, b);
    FreeIsReady(u, a, e, b.s);
    ReapIsFree(a.s, e, b.s);
    var w := Code(a.s, e.cpu, e.ch).w;
    EmptiesOk(u, a, b, w.i, w.q);
    GivesBack(a.h, b.h, a.slots[w.i]);
    GivesBackInUse(a.h, b.h, a.slots[w.i]);
    NotFree(a.h, PagesOf(a.h, a.slots[w.i].trapframe, a.slots[w.i].pagetable));
    FourPages(a.h, a.slots[w.i]);
    k := w.i;
  }

  /** The pages of slot k were in use and are free now. */
  ghost predicate ReturnsPages(a: Joint, b: Joint, k: nat) {
    && k < |a.slots| && ProcPool.Live(a.slots[k]) && a.slots[k].pagetable in a.h.trees
    && b.slots == a.slots[k := Slot(0, 0)]
    && var own := PagesOf(a.h, a.slots[k].trapframe, a.slots[k].pagetable);
    && |own| == 4 && own !! FreePages(a.h) && FreePages(b.h) == FreePages(a.h) + own
  }

  lemma ReapIsFree(s: State, e: Event, s': State)
    requires Inv(s) && StepTo(s, e, s') && s'.reaps != s.reaps
    ensures Code(s, e.cpu, e.ch).Do? && Code(s, e.cpu, e.ch).w.Free?
  {
    GoodWrites(s, e, s');
  }

  lemma NotFree(h: Heap, own: set<int>)
    requires HeapOk(h) && own <= h.owner.Keys && forall p :: p in own ==> h.owner[p] != Owner.Free
    ensures own !! FreePages(h)
  {
    forall p | p in own ensures p !in FreePages(h) { FreeByOwner(h, p); }
  }

  // ----- what any number of creations and reapings leaves behind

  /** The write of step i concerns the pages of slot k. */
  ghost predicate Touches(js: seq<Joint>, events: seq<Event>, i: nat, k: nat)
    requires i < |events| && |js| == |events| + 1
  {
    && Shape(js[i].s) && events[i].cpu < |js[i].s.cpus|
    && var ins := Code(js[i].s, events[i].cpu, events[i].ch);
    && ins.Do? && (ins.w.Alloc? || ins.w.Free?) && ins.w.i == k
  }

  ghost predicate SameAt(a: Joint, b: Joint, k: nat) {
    k < |a.slots| == |b.slots| && SamePages(a.h, b.h, a.slots[k], b.slots[k])
  }

  lemma UntouchedByAlloc(u: Setup, a: Joint, b: Joint, l: nat, k: nat)
    requires JointOk(u, a) && l < |a.slots| && k < |a.slots| && l != k && HeapFollows(u, Alloc(l), a, b)
    ensures SameAt(a, b, k)
  {
    var tf, pt :| Fills(u, a, b, l, tf, pt);
    assert SlotJoint(u, a, k);
    if ProcPool.Live(a.slots[k]) { SlotStaysJoint(a.h, b.h, a.slots[k], tf, pt); }
  }

  lemma UntouchedByFree(u: Setup, a: Joint, b: Joint, l: nat, k: nat)
    requires AllApart(a.slots) && l < |a.slots| && k < |a.slots| == |a.s.procs| && l != k && SlotJoint(u, a, k)
    requires ProcPool.Live(a.slots[l]) && b.h.trees == a.h.trees - {a.slots[l].pagetable}
    requires b.slots == a.slots[l := Slot(0, 0)]
    ensures SameAt(a, b, k)
  {
    assert Apart(a.slots[k], a.slots[l]);
  }

  lemma EmptiedTrees(a: Joint, b: Joint, l: nat)
    requires l < |a.slots| && FreeReady(a.h, a.slots[l].trapframe, a.slots[l].pagetable) && Empties(a, b, l)
    requires ProcPool.Live(a.slots[l])
    ensures b.h.trees == a.h.trees - {a.slots[l].pagetable} && b.slots == a.slots[l := Slot(0, 0)]
  {
  }

  lemma UntouchedByWrite(u: Setup, a: Joint, b: Joint, w: Write, k: nat)
    requires JointOk(u, a) && WriteFits(w, |a.slots|) && HeapFollows(u, w, a, b) && k < |a.slots|
    requires !((w.Alloc? || w.Free?) && w.i == k)
    requires w.Free? ==>
      ProcPool.Live(a.slots[w.i]) && FreeReady(a.h, a.slots[w.i].trapframe, a.slots[w.i].pagetable)
    ensures SameAt(a, b, k)
  {
    match w
    case Alloc(l) => UntouchedByAlloc(u, a, b, l, k);
    case Free(l, _) =>
      assert SlotJoint(u, a, k);
      EmptiedTrees(a, b, l);
      UntouchedByFree(u, a, b, l, k);
    case _ => assert SlotJoint(u, a, k);
  }

  lemma UntouchedStep(u: Setup, a: Joint, e: Event, b: Joint, k: nat)
    requires JointOk(u, a) && Inv(a.s) && JointStep(u, a, e, b) && k < |a.slots|
    requires var w := Code(a.s, e.cpu, e.ch).w; !((w.Alloc? || w.Free?) && w.i == k)
    ensures SameAt(a, b, k)
  {
    FreeIsReady(u, a, e, b.s);
    UntouchedByWrite(u, a, b, Code(a.s, e.cpu, e.ch).w, k);
  }

  lemma UntouchedSlot(u: Setup, js: seq<Joint>, events: seq<Event>, i: nat, k: nat)
    requires JointRun(u, js, events) && i < |events| && k < |js[i].slots| && !Touches(js, events, i, k)
    ensures SameAt(js[i], js[i + 1], k)
  {
    JointRunOk(u, js, events, i);
    assert JointStepAt(u, js, events, i);
    UntouchedStep(u, js[i], events[i], js[i + 1], k);
  }

  lemma {:induction false} UntouchedRun(u: Setup, js: seq<Joint>, events: seq<Event>, i: nat, j: nat, k: nat)
    requires JointRun(u, js, events) && i <= j < |js| && k < |js[i].slots|
    requires forall t :: i <= t < j ==> !Touches(js, events, t, k)
    ensures SameAt(js[i], js[j], k)
    decreases j
  {
    if i == j {
      JointRunOk(u, js, events, i);
      assert SlotJoint(u, js[i], k);
    } else {
      UntouchedRun(u, js, events, i, j - 1, k);
      UntouchedSlot(u, js, events, j - 1, k);
    }
  }

  predicate Idle(j: Joint, k: nat) {
    k < |j.s.procs| && j.s.procs[k].state == UNUSED
  }

  /** Slot k is UNUSED at both moments, or neither allocated nor freed in between. */
  ghost predicate BackOrLeftAlone(js: seq<Joint>, events: seq<Event>, i: nat, j: nat, k: nat)
    requires |js| == |events| + 1 && i <= j < |js|
  {
    (Idle(js[i], k) && Idle(js[j], k)) || (forall t :: i <= t < j ==> !Touches(js, events, t, k))
  }

  /**
   Processes may come and go in between: if every slot is either UNUSED at both moments or has
   been left alone since the first, the very same pages are free.
  */
  lemma CyclesLoseNothing(u: Setup, js: seq<Joint>, events: seq<Event>, i: nat, j: nat)
    requires JointRun(u, js, events) && i <= j < |js|
    requires forall k: nat :: k < |js[i].s.procs| ==> BackOrLeftAlone(js, events, i, j, k)
    ensures FreePages(js[j].h) == FreePages(js[i].h)
  {
    JointRunOk(u, js, events, i);
    JointRunOk(u, js, events, j);
    forall k | 0 <= k < |js[i].slots| ensures SamePages(js[i].h, js[j].h, js[i].slots[k], js[j].slots[k]) {
      assert SlotJoint(u, js[i], k) && SlotJoint(u, js[j], k) && BackOrLeftAlone(js, events, i, j, k);
      if !(Idle(js[i], k) && Idle(js[j], k)) { UntouchedRun(u, js, events, i, j, k); }
    }
    SamePagesManaged(u, js[i], js[j]);
    SameOwnersNoLoss(js[i].h, js[j].h, u.ker, js[i].slots, js[j].slots);
  }

  lemma SamePagesManaged(u: Setup, a: Joint, b: Joint)
    requires JointOk(u, a) && JointOk(u, b)
    ensures a.h.pages == b.h.pages
  {
    forall p ensures p in a.h.pages <==> p in b.h.pages {
      assert p in a.h.pages <==> Manageable(p, u.end);
    }
  }

  // ----- the trapframe

  /** In no run does the trapframe address of a process lead to its trapframe. */
  lemma NoProcessSeesItsTrapframe(u: Setup, js: seq<Joint>, events: seq<Event>, i: nat, p: nat, off: nat)
    requires JointRun(u, js, events) && i < |js| && p < |js[i].s.procs| && js[i].s.procs[p].state != UNUSED
    requires off < PGSIZE
    ensures p < |js[i].slots| && js[i].slots[p].trapframe >= KERNBASE
    ensures HwWalk(js[i].h.mem, js[i].slots[p].pagetable, TRAPFRAME + off, 2) == Some(PGSIZE + off)
  {
    JointRunOk(u, js, events, i);
    var j := js[i];
    assert SlotJoint(u, j, p) && SlotOk(j.h, u.ker, j.slots[p]);
    TrapframeMissed(j.h, u.end, j.slots[p].pagetable, u.trampoline, j.slots[p].trapframe, off);
  }

  // ----- how such a run starts

  /** The first i slots have their pages, the others none. */
  ghost predicate Started(u: Setup, h: Heap, slots: seq<Slot>, i: nat) {
    && PoolOk(h, u.ker, slots)
    && forall p :: 0 <= p < |slots| ==> StartedAt(u, h, slots[p], p < i)
  }

  ghost predicate StartedAt(u: Setup, h: Heap, s: Slot, live: bool) {
    && (ProcPool.Live(s) <==> live)
    && (live ==> s.pagetable in h.trees && MapOf(h, s.pagetable) == ProcMapping(u.trampoline))
  }

  lemma StartNext(u: Setup, h: Heap, h': Heap, slots: seq<Slot>, i: nat, tf: int, pt: int)
    requires Started(u, h, slots, i) && i < |slots| && AllocatedProcess(h, h', u.trampoline, tf, pt)
    ensures Started(u, h', slots[i := Slot(tf, pt)], i + 1)
  {
    assert StartedAt(u, h, slots[i], false);
    PoolTook(h, h', u.ker, slots, i, tf, pt);
    var slots' := slots[i := Slot(tf, pt)];
    forall p | 0 <= p < |slots'| ensures StartedAt(u, h', slots'[p], p < i + 1) {
      assert StartedAt(u, h, slots[p], p < i);
      if p < i { SlotStaysJoint(h, h', slots[p], tf, pt); }
    }
  }

  lemma StartsJoint(u: Setup, h: Heap, slots: seq<Slot>, s: State)
    requires Boot(s) && Started(u, h, slots, s.nextpid - 1) && |s.procs| == |slots| && Manages(h.pages, u.end)
    ensures JointOk(u, Joint(s, h, slots))
  {
    var j := Joint(s, h, slots);
    forall p | 0 <= p < |slots| ensures SlotJoint(u, j, p) { assert StartedAt(u, h, slots[p], p < s.nextpid - 1); }
  }

  /**
   main creates k processes (userinit and create_process) after procinit: this needs four pages for
   each, and with what it leaves behind every run of the scheduler can start.
  */
  method CreateFirst(ram: Ram, n: nat, k: nat, trampoline: Word, ghost kernel: int)
    returns (r: Outcome, slots: seq<Slot>)
    requires ram.Valid() && ram.Managed() && ram.trees.Keys == {kernel} && k <= n && Aligned(trampoline)
    modifies ram
    ensures r.Done? <==> |old(ram.free)| >= 4 * k
    ensures r.Done? ==> |slots| == n && |ram.free| == |old(ram.free)| - 4 * k
    ensures r.Done? ==>
      var u := Setup(Kernel(kernel, old(ram.trees)[kernel], DataPages(old(ram.View()))), ram.end, trampoline);
      forall s :: Boot(s) && |s.procs| == n && s.nextpid == k + 1 ==> JointOk(u, Joint(s, ram.View(), slots))
  {
    ghost var u := Setup(Kernel(kernel, ram.trees[kernel], DataPages(ram.View())), ram.end, trampoline);
    slots := seq(n, i => Slot(0, 0));
    StartOk(ram.View(), u.ker, slots);
    var i := 0;
    while i < k
      invariant 0 <= i <= k && |slots| == n && ram.Managed() && Started(u, ram.View(), slots, i)
      invariant |ram.free| == |old(ram.free)| - 4 * i
    {
      ghost var h := ram.View();
      var tf, pt;
      r, tf, pt := AllocProcess(ram, trampoline);
      if r.Panicked? {
        return;
      }
      StartNext(u, h, ram.View(), slots, i, tf, pt);
      slots, i := slots[i := Slot(tf, pt)], i + 1;
    }
    r := Done;
    forall s | Boot(s) && |s.procs| == n && s.nextpid == k + 1 ensures JointOk(u, Joint(s, ram.View(), slots)) {
      StartsJoint(u, ram.View(), slots, s);
    }
  }
}
