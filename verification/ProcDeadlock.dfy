/**
 Deadlock on spinlocks, for any number of CPUs: following the holders of the locks that are
 waited for ends at a CPU that can take a step, or at one pair of program points.
*/
module ProcDeadlock {
  import opened Prelude
  import opened ProcModel
  import opened ProcInvariants
  import opened ProcEffects
  import opened ProcPreservation
  import opened ProcStep
  import opened ProcInduction

  // ----- waiting for a lock

  predicate WantsLock(s: State, c: nat, ch: Choice)
    requires Shape(s) && c < |s.cpus|
  {
    var ins := Code(s, c, ch);
    ins.Do? && ins.op.Lock? && ins.op.l in s.held && s.held[ins.op.l] != c && s.held[ins.op.l] < |s.cpus|
  }

  /** The CPU that holds the lock CPU c is about to take. */
  function Holder(s: State, c: nat, ch: Choice): (d: nat)
    requires Shape(s) && c < |s.cpus| && WantsLock(s, c, ch)
    ensures d < |s.cpus| && d != c
  {
    s.held[Code(s, c, ch).op.l]
  }

  lemma PerformSpins(s: State, c: nat, t: Tid, ins: Instr)
    requires Sizes(s) && c < |s.cpus| && TidFits(t, s) && Addresses(ins, |s.procs|)
    ensures Perform(s, c, t, ins) == Spin <==> ins.Do? && ins.op.Lock? && ins.op.l in s.held && s.held[ins.op.l] != c
  {
    if ins.Do? { ApplyFrame(s, ins.w); }
  }

  /** The holder of a lock holds it at its present program point. */
  lemma HolderHolds(s: State, l: Lock)
    requires Inv(s) && l in s.held
    ensures s.held[l] < |s.cpus| && CpuShape(s, s.held[l]) && l in HeldBy(s, s.held[l])
  {
    var d := s.held[l];
    assert CpuShape(s, d) && CpuLocks(s, d);
    assert Holding(s, d, l);
  }

  /** To spin is to want a lock that another CPU holds. */
  lemma SpinsIff(s: State, c: nat, ch: Choice)
    requires Inv(s) && c < |s.cpus|
    ensures Exec(s, c, ch) == Spin <==> WantsLock(s, c, ch)
    ensures WantsLock(s, c, ch) ==>
      && CpuShape(s, Holder(s, c, ch)) && Code(s, c, ch).op.l in HeldBy(s, Holder(s, c, ch))
  {
    assert CpuShape(s, c);
    var ins := Code(s, c, ch);
    PerformSpins(s, c, s.cpus[c].run, ins);
    if ins.Do? && ins.op.Lock? && ins.op.l in s.held { HolderHolds(s, ins.op.l); }
  }

  // ----- the two program points

  /** CPU x is in create_process: it holds the lock of slot i and is about to acquire wait_lock. */
  predicate AtLink(s: State, x: nat, i: nat)
    requires Sizes(s)
  {
    && x < |s.cpus| && s.cpus[x].run.P? && s.cpus[x].run.slot < |s.procs|
    && var th := s.threads[s.cpus[x].run.slot];
    && th.trap == NoTrap && th.pc.Creating? && th.pc.cr.CrWait? && th.pc.cr.i == i
  }

  /** CPU y is in exit_process: it holds wait_lock and is about to acquire the lock of slot i in wakeup. */
  predicate AtWake(s: State, y: nat, i: nat)
    requires Sizes(s)
  {
    && y < |s.cpus| && s.cpus[y].run.P? && s.cpus[y].run.slot < |s.procs| && i < |s.procs|
    && s.cpus[y].run.slot != i
    && var th := s.threads[s.cpus[y].run.slot];
    && th.trap == NoTrap && th.pc.Exiting? && th.pc.ex.ExWake? && th.pc.ex.k == i
  }

  predicate Crossed(s: State, x: nat, y: nat, i: nat)
    requires Sizes(s)
  {
    AtLink(s, x, i) && AtWake(s, y, i)
  }

  lemma HolderOnlyGoes(s: State, d: nat, ch: Choice)
    requires Inv(s) && d < |s.cpus| && CpuShape(s, d) && HeldBy(s, d) != {} && ch != Go
    ensures Code(s, d, ch) == Refuses
  {
    assert CpuLocks(s, d) && RunOk(s, d);
    if s.cpus[d].run.P? { RunningThread(s, d, s.cpus[d].run.slot); }
  }

  lemma HolderHasCode(s: State, d: nat)
    requires Inv(s) && d < |s.cpus| && CpuShape(s, d) && HeldBy(s, d) != {}
    ensures Code(s, d, Go).Do?
  {
    assert RunOk(s, d) && SchedKind(s.scheds[d]);
    if s.cpus[d].run.P? { RunningThread(s, d, s.cpus[d].run.slot); }
  }

  lemma PerformOutcome(s: State, c: nat, t: Tid, ins: Instr)
    requires Sizes(s) && c < |s.cpus| && TidFits(t, s) && Addresses(ins, |s.procs|) && ins.Do?
    ensures Perform(s, c, t, ins).Ok? || Perform(s, c, t, ins) in {Spin, LockPanic}
  {
  }

  /** A CPU that holds a lock has no other choice than to go on. */
  lemma HolderMustGo(s: State, d: nat, ch: Choice)
    requires Inv(s) && d < |s.cpus| && CpuShape(s, d) && HeldBy(s, d) != {}
    ensures ch != Go ==> Code(s, d, ch) == Refuses
    ensures Code(s, d, Go).Do?
    ensures Exec(s, d, Go).Ok? || Exec(s, d, Go) == Spin
  {
    if ch != Go { HolderOnlyGoes(s, d, ch); }
    HolderHasCode(s, d);
    NoLockPanic(s, d, Go);
    PerformOutcome(s, d, s.cpus[d].run, Code(s, d, Go));
  }

  /** create_process holds the lock of slot i there and wants wait_lock. */
  lemma LinkWants(s: State, x: nat, i: nat)
    requires Inv(s) && AtLink(s, x, i)
    ensures CpuShape(s, x) && i < |s.procs| && HeldBy(s, x) == {SlotLock(i)}
    ensures Code(s, x, Go).Do? && Code(s, x, Go).op == Lock(WaitLock)
    ensures s.procs[i].state == USED && s.procs[i].parent == None
  {
    assert CpuShape(s, x) && SlotShape(s, s.cpus[x].run.slot) && ThreadOk(s, s.cpus[x].run.slot);
  }

  /** wakeup in exit_process holds wait_lock and wants the lock of slot i. */
  lemma WakeWants(s: State, y: nat, i: nat)
    requires Inv(s) && AtWake(s, y, i)
    ensures CpuShape(s, y) && HeldBy(s, y) == {WaitLock}
    ensures Code(s, y, Go).Do? && Code(s, y, Go).op == Lock(SlotLock(i))
  {
    assert CpuShape(s, y) && SlotShape(s, s.cpus[y].run.slot);
  }

  predicate NoStep(r: Res) {
    r.Spin? || r.Refused?
  }

  lemma WaitsFor(s: State, c: nat, d: nat, l: Lock)
    requires Inv(s) && c < |s.cpus| && d < |s.cpus| && c != d && CpuShape(s, d)
    requires Code(s, c, Go).Do? && Code(s, c, Go).op == Lock(l) && l in HeldBy(s, d)
    ensures WantsLock(s, c, Go) && Holder(s, c, Go) == d && Exec(s, c, Go) == Spin
  {
    assert CpuLocks(s, d);
    assert Holding(s, d, l);
    SpinsIff(s, c, Go);
  }

  /**
   create_process takes wait_lock while it holds the lock of the new slot, exit_process takes
   slot locks while it holds wait_lock: there the two CPUs wait for each other, and neither has a step.
  */
  lemma CreateAndExitBlock(s: State, x: nat, y: nat, i: nat, ch: Choice)
    requires Inv(s) && Crossed(s, x, y, i)
    ensures x != y && NoStep(Exec(s, x, ch)) && NoStep(Exec(s, y, ch))
    ensures WantsLock(s, x, Go) && WantsLock(s, y, Go) && Holder(s, x, Go) == y && Holder(s, y, Go) == x
  {
    LinkWants(s, x, i);
    WakeWants(s, y, i);
    WaitsFor(s, x, y, WaitLock);
    WaitsFor(s, y, x, SlotLock(i));
    HolderMustGo(s, x, ch);
    HolderMustGo(s, y, ch);
  }

  // ----- who spins while holding a lock

  lemma PidHolderCode(s: State, d: nat)
    requires Inv(s) && d < |s.cpus| && CpuShape(s, d) && PidLock in HeldBy(s, d)
    ensures !WantsLock(s, d, Go)
  {
  }

  /** The holder of pid_lock releases it at once. */
  lemma PidHolderGoes(s: State, d: nat)
    requires Inv(s) && d < |s.cpus| && CpuShape(s, d) && PidLock in HeldBy(s, d)
    ensures Exec(s, d, Go).Ok?
  {
    HolderMustGo(s, d, Go);
    SpinsIff(s, d, Go);
    PidHolderCode(s, d);
  }

  /** The holder of a slot's lock spins only in create_process. */
  lemma SlotHolderSpins(s: State, d: nat, k: nat)
    requires Inv(s) && d < |s.cpus| && CpuShape(s, d) && SlotLock(k) in HeldBy(s, d) && WantsLock(s, d, Go)
    ensures k < |s.procs|
    ensures AtLink(s, d, k) || (Code(s, d, Go).op.l == PidLock && s.procs[k].state == UNUSED)
  {
    assert RunOk(s, d) && SchedKind(s.scheds[d]);
    if s.cpus[d].run.P? { RunningThread(s, d, s.cpus[d].run.slot); }
  }

  /** The holder of wait_lock spins only for the lock of a slot: in wakeup, or for one that is not being created. */
  lemma WaitHolderSpins(s: State, d: nat)
    requires Inv(s) && d < |s.cpus| && CpuShape(s, d) && WaitLock in HeldBy(s, d) && WantsLock(s, d, Go)
    ensures Code(s, d, Go).op.l.SlotLock? && Code(s, d, Go).op.l.slot < |s.procs|
    ensures var k := Code(s, d, Go).op.l.slot;
      AtWake(s, d, k) || (s.procs[k].state != UNUSED && (s.procs[k].state == USED ==> s.procs[k].parent.Some?))
  {
    assert RunOk(s, d) && SchedKind(s.scheds[d]);
    if s.cpus[d].run.P? {
      var p := s.cpus[d].run.slot;
      RunningThread(s, d, p);
      var th := s.threads[p];
      if th.trap == NoTrap && th.pc.Waiting? && th.pc.wt.WtScan? && th.pc.wt.j < |s.procs| {
        assert ParentOk(s, th.pc.wt.j);
      }
    }
  }

  lemma TicksHolderSpins(s: State, d: nat)
    requires Inv(s) && d < |s.cpus| && CpuShape(s, d) && TicksLock in HeldBy(s, d) && WantsLock(s, d, Go)
    ensures Code(s, d, Go).op.l.SlotLock?
  {
    assert RunOk(s, d) && SchedKind(s.scheds[d]);
    if s.cpus[d].run.P? { RunningThread(s, d, s.cpus[d].run.slot); }
  }

  // ----- following the holders

  ghost predicate Stuck(s: State, c: nat)
    requires Sizes(s)
  {
    exists x, y, i :: Crossed(s, x, y, i) && (c == x || c == y)
  }

  /** At most k holders on from CPU c there is one that can take a step, or one of the two above. */
  ghost predicate LeadsOut(s: State, c: nat, k: nat)
    requires Shape(s) && c < |s.cpus|
    decreases k
  {
    || Exec(s, c, Go).Ok?
    || Stuck(s, c)
    || (k > 0 && WantsLock(s, c, Go) && LeadsOut(s, Holder(s, c, Go), k - 1))
  }

  lemma {:induction false} LeadsFurther(s: State, c: nat, k: nat, n: nat)
    requires Shape(s) && c < |s.cpus| && LeadsOut(s, c, k) && k <= n
    ensures LeadsOut(s, c, n)
    decreases k
  {
    if !Exec(s, c, Go).Ok? && !Stuck(s, c) { LeadsFurther(s, Holder(s, c, Go), k - 1, n - 1); }
  }

  lemma PidOut(s: State, d: nat)
    requires Inv(s) && d < |s.cpus| && CpuShape(s, d) && PidLock in HeldBy(s, d)
    ensures LeadsOut(s, d, 0)
  {
    PidHolderGoes(s, d);
  }

  /** The holder of the lock of slot k, unless it is about to acquire wait_lock. */
  lemma SlotOut(s: State, d: nat, k: nat)
    requires Inv(s) && d < |s.cpus| && CpuShape(s, d) && SlotLock(k) in HeldBy(s, d) && !AtLink(s, d, k)
    ensures LeadsOut(s, d, 1)
  {
    HolderMustGo(s, d, Go);
    SpinsIff(s, d, Go);
    if !Exec(s, d, Go).Ok? {
      SlotHolderSpins(s, d, k);
      PidOut(s, Holder(s, d, Go));
    }
  }

  lemma WaitOut(s: State, d: nat)
    requires Inv(s) && d < |s.cpus| && CpuShape(s, d) && WaitLock in HeldBy(s, d)
    ensures LeadsOut(s, d, 2)
  {
    HolderMustGo(s, d, Go);
    SpinsIff(s, d, Go);
    if !Exec(s, d, Go).Ok? {
      WaitHolderSpins(s, d);
      var k, f := Code(s, d, Go).op.l.slot, Holder(s, d, Go);
      if AtLink(s, f, k) {
        LinkWants(s, f, k);
        assert Crossed(s, f, d, k);
      } else {
        SlotOut(s, f, k);
      }
    }
  }

  lemma AnySlotOut(s: State, d: nat, k: nat)
    requires Inv(s) && d < |s.cpus| && CpuShape(s, d) && SlotLock(k) in HeldBy(s, d)
    ensures LeadsOut(s, d, 3)
  {
    if AtLink(s, d, k) {
      HolderMustGo(s, d, Go);
      SpinsIff(s, d, Go);
      if !Exec(s, d, Go).Ok? {
        LinkWants(s, d, k);
        WaitOut(s, Holder(s, d, Go));
      }
    } else {
      SlotOut(s, d, k);
      LeadsFurther(s, d, 1, 3);
    }
  }

  lemma HolderOut(s: State, d: nat, l: Lock)
    requires Inv(s) && d < |s.cpus| && CpuShape(s, d) && l in HeldBy(s, d)
    ensures LeadsOut(s, d, 4)
  {
    match l
    case PidLock => PidOut(s, d); LeadsFurther(s, d, 0, 4);
    case WaitLock => WaitOut(s, d); LeadsFurther(s, d, 2, 4);
    case SlotLock(k) => AnySlotOut(s, d, k); LeadsFurther(s, d, 3, 4);
    case TicksLock =>
      HolderMustGo(s, d, Go);
      SpinsIff(s, d, Go);
      if !Exec(s, d, Go).Ok? {
        TicksHolderSpins(s, d);
        AnySlotOut(s, Holder(s, d, Go), Code(s, d, Go).op.l.slot);
      }
  }

  /**
   From any CPU that spins, at most five holders on there is a CPU that can take a step, or
   one of two CPUs in create_process and exit_process that wait for each other.
  */
  lemma SpinningLeadsOut(s: State, c: nat, ch: Choice)
    requires Reachable(s) && Shape(s) && c < |s.cpus| && Exec(s, c, ch) == Spin
    ensures WantsLock(s, c, ch) && LeadsOut(s, Holder(s, c, ch), 4)
  {
    ReachableInv(s);
    SpinsIff(s, c, ch);
    HolderOut(s, Holder(s, c, ch), Code(s, c, ch).op.l);
  }

  // ----- deadlock, exactly

  /** CPU c spins, whatever call it chose, for a lock that a CPU of the set holds. */
  ghost predicate WaitsWithin(s: State, cs: set<nat>, c: nat)
    requires Shape(s)
  {
    c < |s.cpus| && exists ch :: WantsLock(s, c, ch) && Holder(s, c, ch) in cs
  }

  /** A group of CPUs each of which waits for a lock that another of them holds. */
  ghost predicate Deadlocked(s: State, cs: set<nat>)
    requires Shape(s)
  {
    cs != {} && forall c :: c in cs ==> WaitsWithin(s, cs, c)
  }

  /** In a deadlocked group every holder waits at its only choice. */
  lemma HolderWaits(s: State, cs: set<nat>, d: nat)
    requires Inv(s) && Deadlocked(s, cs) && d in cs && d < |s.cpus| && CpuShape(s, d) && HeldBy(s, d) != {}
    ensures WantsLock(s, d, Go) && Holder(s, d, Go) in cs
  {
    assert WaitsWithin(s, cs, d);
    var ch :| WantsLock(s, d, ch) && Holder(s, d, ch) in cs;
    HolderMustGo(s, d, ch);
  }

  lemma CrossedWithin(s: State, cs: set<nat>, d: nat) returns (x: nat, y: nat, i: nat)
    requires Inv(s) && Deadlocked(s, cs) && d in cs && d < |s.cpus| && Stuck(s, d)
    ensures x in cs && y in cs && Crossed(s, x, y, i)
  {
    x, y, i :| Crossed(s, x, y, i) && (d == x || d == y);
    CreateAndExitBlock(s, x, y, i, Go);
    LinkWants(s, x, i);
    WakeWants(s, y, i);
    HolderWaits(s, cs, d);
  }

  lemma NextInGroup(s: State, cs: set<nat>, d: nat, k: nat)
    requires Inv(s) && Deadlocked(s, cs) && d in cs && d < |s.cpus| && CpuShape(s, d) && HeldBy(s, d) != {}
    requires LeadsOut(s, d, k) && !Stuck(s, d)
    ensures k > 0 && WantsLock(s, d, Go)
    ensures var f := Holder(s, d, Go); f in cs && CpuShape(s, f) && HeldBy(s, f) != {} && LeadsOut(s, f, k - 1)
  {
    HolderWaits(s, cs, d);
    SpinsIff(s, d, Go);
  }

  lemma {:induction false} DeadlockFound(s: State, cs: set<nat>, d: nat, k: nat) returns (x: nat, y: nat, i: nat)
    requires Inv(s) && Deadlocked(s, cs) && d in cs && d < |s.cpus| && CpuShape(s, d) && HeldBy(s, d) != {}
    requires LeadsOut(s, d, k)
    ensures x in cs && y in cs && Crossed(s, x, y, i)
    decreases k
  {
    if Stuck(s, d) {
      x, y, i := CrossedWithin(s, cs, d);
    } else {
      NextInGroup(s, cs, d, k);
      x, y, i := DeadlockFound(s, cs, Holder(s, d, Go), k - 1);
    }
  }

  /** Every deadlocked group contains a CPU in create_process and one in exit_process that wait for each other. */
  lemma DeadlockContains(s: State, cs: set<nat>) returns (x: nat, y: nat, i: nat)
    requires Reachable(s) && Shape(s) && Deadlocked(s, cs)
    ensures x in cs && y in cs && Crossed(s, x, y, i)
  {
    ReachableInv(s);
    var c :| c in cs;
    assert WaitsWithin(s, cs, c);
    var ch :| WantsLock(s, c, ch) && Holder(s, c, ch) in cs;
    SpinsIff(s, c, ch);
    var d := Holder(s, c, ch);
    HolderOut(s, d, Code(s, c, ch).op.l);
    x, y, i := DeadlockFound(s, cs, d, 4);
  }

  ghost predicate AnyDeadlock(s: State)
    requires Shape(s)
  {
    exists cs :: Deadlocked(s, cs)
  }

  ghost predicate AnyCrossed(s: State)
    requires Sizes(s)
  {
    exists x, y, i :: Crossed(s, x, y, i)
  }

  lemma WaitsForMember(s: State, cs: set<nat>, c: nat)
    requires Shape(s) && c < |s.cpus| && WantsLock(s, c, Go) && Holder(s, c, Go) in cs
    ensures WaitsWithin(s, cs, c)
  {
  }

  lemma PairWaits(s: State, x: nat, y: nat)
    requires Shape(s) && WaitsWithin(s, {x, y}, x) && WaitsWithin(s, {x, y}, y)
    ensures Deadlocked(s, {x, y})
  {
    forall c | c in {x, y} ensures WaitsWithin(s, {x, y}, c) {
      if c == x { } else { }
    }
  }

  lemma PairDeadlocked(s: State, x: nat, y: nat)
    requires Shape(s) && x < |s.cpus| && y < |s.cpus| && WantsLock(s, x, Go) && WantsLock(s, y, Go)
    requires Holder(s, x, Go) == y && Holder(s, y, Go) == x
    ensures Deadlocked(s, {x, y})
  {
    WaitsForMember(s, {x, y}, x);
    WaitsForMember(s, {x, y}, y);
    PairWaits(s, x, y);
  }

  lemma SomeDeadlock(s: State, cs: set<nat>)
    requires Shape(s) && Deadlocked(s, cs)
    ensures AnyDeadlock(s)
  {
  }

  lemma CrossedDeadlock(s: State, x: nat, y: nat, i: nat)
    requires Inv(s) && Crossed(s, x, y, i)
    ensures Deadlocked(s, {x, y})
  {
    CreateAndExitBlock(s, x, y, i, Go);
    PairDeadlocked(s, x, y);
  }

  lemma CrossedIfDeadlock(s: State)
    requires Reachable(s) && Shape(s) && AnyDeadlock(s)
    ensures AnyCrossed(s)
  {
    var cs :| Deadlocked(s, cs);
    var x, y, i := DeadlockContains(s, cs);
  }

  lemma DeadlockIfCrossed(s: State)
    requires Inv(s) && AnyCrossed(s)
    ensures AnyDeadlock(s)
  {
    var x, y, i :| Crossed(s, x, y, i);
    CrossedDeadlock(s, x, y, i);
    SomeDeadlock(s, {x, y});
  }

  /** Some CPUs are deadlocked on spinlocks if and only if two of them are at these two program points. */
  lemma DeadlockIff(s: State)
    requires Reachable(s) && Shape(s)
    ensures AnyDeadlock(s) <==> AnyCrossed(s)
  {
    ReachableInv(s);
    if AnyDeadlock(s) { CrossedIfDeadlock(s); }
    if AnyCrossed(s) { DeadlockIfCrossed(s); }
  }

  // ----- it lasts

  lemma CrossedStays(s: State, e: Event, s': State, x: nat, y: nat, i: nat)
    requires Inv(s) && StepTo(s, e, s') && Crossed(s, x, y, i)
    ensures Sizes(s') && Crossed(s', x, y, i)
  {
    CreateAndExitBlock(s, x, y, i, e.ch);
    KeepsInv(s, e.cpu, e.ch, s');
    assert CpuShape(s, e.cpu) && CpuShape(s, x) && CpuShape(s, y);
    CpuStays(s, e, s', x);
    CpuStays(s, e, s', y);
  }

  /** What a CPU executes is not changed by the step of another CPU. */
  lemma CpuFrame(s: State, c: nat, ins: Instr, s': State, x: nat)
    requires GoodStep(s, c, ins, s') && x < |s.cpus| && x != c && CpuShape(s, x) && s.cpus[x].run.P? && RunOk(s, x)
    requires TouchesIdle(s, ins.w)
    ensures x < |s'.cpus| && s'.cpus[x] == s.cpus[x] && |s'.procs| == |s.procs| && |s'.threads| == |s.threads|
    ensures var p := s.cpus[x].run.slot;
      s'.threads[p].pc == s.threads[p].pc && s'.threads[p].trap == s.threads[p].trap
  {
    ApplyFrame(s, ins.w);
  }

  lemma CpuStays(s: State, e: Event, s': State, x: nat)
    requires Inv(s) && Inv(s') && StepTo(s, e, s') && CpuShape(s, e.cpu)
    requires x < |s.cpus| && x != e.cpu && s.cpus[x].run.P? && CpuShape(s, x)
    ensures x < |s'.cpus| && s'.cpus[x] == s.cpus[x] && |s'.procs| == |s.procs| && |s'.threads| == |s.threads|
    ensures var p := s.cpus[x].run.slot;
      s'.threads[p].pc == s.threads[p].pc && s'.threads[p].trap == s.threads[p].trap
  {
    GoodStepFromExec(s, e.cpu, e.ch, s');
    assert RunOk(s, x);
    CpuFrame(s, e.cpu, Code(s, e.cpu, e.ch), s', x);
  }

  lemma CrossedNext(states: seq<State>, events: seq<Event>, j: nat, x: nat, y: nat, k: nat)
    requires IsRun(states, events) && j < |events| && Sizes(states[j]) && Crossed(states[j], x, y, k)
    ensures Sizes(states[j + 1]) && Crossed(states[j + 1], x, y, k)
  {
    RunInv(states, events, j);
    assert StepAt(states, events, j);
    CrossedStays(states[j], events[j], states[j + 1], x, y, k);
  }

  /** Once two CPUs wait for each other they do so for the rest of the run. */
  lemma {:induction false} DeadlockForever(states: seq<State>, events: seq<Event>, i: nat, j: nat, x: nat, y: nat,
        k: nat)
    requires IsRun(states, events) && i <= j < |states| && Sizes(states[i]) && Crossed(states[i], x, y, k)
    ensures Sizes(states[j]) && Crossed(states[j], x, y, k)
    decreases j
  {
    if i < j {
      DeadlockForever(states, events, i, j - 1, x, y, k);
      CrossedNext(states, events, j - 1, x, y, k);
    }
  }
}
