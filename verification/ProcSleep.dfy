/** No lost wakeup: what holds while a process sleeps in wait_process. */
module ProcSleep {
  import opened Prelude
  import opened ProcModel
  import opened ProcInvariants
  import opened ProcStatements
  import opened ProcEffects
  import opened ProcPreservation
  import opened ProcStep

  /** Whoever holds wait_lock is in a wakeup loop that will still reach slot p. */
  predicate WakePending(s: State, p: nat)
    requires Sizes(s)
  {
    && WaitLock in s.held && s.held[WaitLock] < |s.cpus|
    && var t := s.cpus[s.held[WaitLock]].run;
    && t.P? && t.slot < |s.procs| && t.slot != p && PendingPc(s.threads[t.slot], p)
  }

  predicate LiveKid(s: State, p: nat, i: nat)
    requires i < |s.procs|
  {
    IsKid(s, p, i) && s.procs[i].state != ZOMBIE
  }

  predicate HasLiveKid(s: State, p: nat) {
    exists i :: 0 <= i < |s.procs| && LiveKid(s, p, i)
  }

  /** A sleeper has a child that has not exited, and if another one is a ZOMBIE then a wakeup is under way. */
  predicate SleepOk(s: State, p: nat)
    requires Sizes(s) && p < |s.procs|
  {
    Asleep(s, p) ==>
      && HasLiveKid(s, p)
      && (forall i :: 0 <= i < |s.procs| && IsKid(s, p, i) && s.procs[i].state == ZOMBIE ==> WakePending(s, p))
  }

  ghost predicate Sleepers(s: State)
    requires Sizes(s)
  {
    forall p :: 0 <= p < |s.procs| ==> SleepOk(s, p)
  }

  /** The only way into the sleeping program points. */
  lemma WayToSleep(s: State, p: nat, ch: Choice)
    requires Sizes(s) && p < |s.procs| && PcFits(s.threads[p].pc, |s.procs|) && s.threads[p].trap == NoTrap
    requires ThreadCode(s, p, ch).Do? && !AsleepPc(s.threads[p])
    requires AsleepPc(Thread(ThreadCode(s, p, ch).pc, ThreadCode(s, p, ch).trap, false, false, None))
    ensures s.threads[p].pc == Waiting(WtScan(|s.procs|, true)) && ThreadCode(s, p, ch).w == Nothing
  {
  }

  /** Slot p falls asleep in this step: it has just found children but no ZOMBIE among them. */
  lemma FallsAsleep(s: State, c: nat, ch: Choice, ins: Instr, s': State, p: nat)
    requires Shape(s) && c < |s.cpus| && CpuShape(s, c) && p < |s.procs| && s.cpus[c].run == P(p) && SlotShape(s, p)
    requires ThreadOk(s, p) && ThreadKind(s.threads[p]) && ins == Code(s, c, ch) && ins.Do?
    requires Sizes(s') && |s'.procs| == |s.procs| && TableFollows(s, s', ins.w)
    requires !AsleepPc(s.threads[p]) && AsleepPc(Thread(ins.pc, ins.trap, false, false, None))
    ensures SleepOk(s', p)
  {
    if s.threads[p].trap == NoTrap && ch != Interrupt {
      WayToSleep(s, p, ch);
      var i :| 0 <= i < |s.procs| && IsKid(s, p, i);
      assert LiveKid(s', p, i);
    }
  }

  /** A pending wakeup for p by another CPU stays pending. */
  lemma PendingElsewhere(s: State, c: nat, ins: Instr, s': State, p: nat)
    requires Structure(s) && GoodStep(s, c, ins, s') && Sizes(s') && TouchesIdle(s, ins.w) && WakePending(s, p)
    requires s.held[WaitLock] != c && (ins.op.Enter? ==> s.cpus[c].run.S?)
    ensures WakePending(s', p)
  {
    var d := s.held[WaitLock];
    assert CpuShape(s, d) && RunOk(s, d) && RunOk(s, c);
  }

  /** The CPU with the pending wakeup for p keeps it pending, or wakes p in this very step. */
  lemma PendingHere(s: State, c: nat, ins: Instr, s': State, p: nat)
    requires GoodStep(s, c, ins, s') && Sizes(s') && CpuShape(s, c) && CpuShape(s', c) && CpuLocks(s', c)
    requires p < |s.procs| && WakePending(s, p) && s.held[WaitLock] == c && !ins.op.Leave? && !ins.op.Enter?
    requires WakeFollows(s, s.cpus[c].run, Th(s, s.cpus[c].run), HeldBy(s, c), ins)
    requires TableOk(s, p) && (SlotLock(p) in HeldBy(s, c) ==> !AsleepPc(s.threads[p]))
    ensures WakePending(s', p) || !Asleep(s', p)
  {
    var next := Thread(ins.pc, ins.trap, false, false, None);
    if PendingPc(next, p) {
      assert WaitLock in HeldBy(s', c);
      assert Holding(s', c, WaitLock);
    }
  }

  /** No other process takes a child away from p or reaps it. */
  lemma KidsRemain(s: State, t: Tid, th: Thread, cur: set<Lock>, ins: Instr, s': State, p: nat)
    requires Sizes(s) && Sizes(s') && |s'.procs| == |s.procs| && TidFits(t, s) && ins.Do? && Addresses(ins, |s.procs|)
    requires TableFollows(s, s', ins.w) && WriteOk(s, t, th, cur, ins.w, ins.op) && t != P(p)
    requires forall i :: 0 <= i < |s.procs| ==> ParentOk(s, i)
    ensures forall i :: 0 <= i < |s.procs| && IsKid(s, p, i) ==> IsKid(s', p, i)
  {
    if ins.w != Nothing { assert ParentOk(s, ins.w.i); }
  }

  /** Where a ZOMBIE child of a sleeper can come from. */
  lemma NewZombie(s: State, t: Tid, th: Thread, cur: set<Lock>, ins: Instr, s': State, p: nat, i: nat)
    requires Sizes(s) && Sizes(s') && |s'.procs| == |s.procs| && TidFits(t, s) && ins.Do? && Addresses(ins, |s.procs|)
    requires TableFollows(s, s', ins.w) && WriteOk(s, t, th, cur, ins.w, ins.op) && WakeFollows(s, t, th, cur, ins)
    requires p < |s.procs| && i < |s.procs| && Asleep(s, p) && IsKid(s', p, i) && s'.procs[i].state == ZOMBIE
    ensures (IsKid(s, p, i) && s.procs[i].state == ZOMBIE) ||
      (t.P? && PendingPc(Thread(ins.pc, ins.trap, false, false, None), p))
  {
  }

  lemma PendingKept(s: State, c: nat, ins: Instr, s': State, p: nat)
    requires Base(s) && Structure(s') && Locks(s') && GoodStep(s, c, ins, s') && CpuShape(s, c) && TouchesIdle(s, ins.w)
    requires WakeFollows(s, s.cpus[c].run, Th(s, s.cpus[c].run), HeldBy(s, c), ins)
    requires (ins.op.Leave? ==> s.cpus[c].run.P? && HeldBy(s, c) == {SlotLock(s.cpus[c].run.slot)}) &&
      (ins.op.Enter? ==> s.cpus[c].run.S?)
    requires p < |s.procs| && s.cpus[c].run != P(p) && WakePending(s, p)
    ensures WakePending(s', p) || !Asleep(s', p)
  {
    assert CpuShape(s', c) && CpuLocks(s', c) && CpuLocks(s, c) && TableOk(s, p);
    if s.held[WaitLock] != c {
      PendingElsewhere(s, c, ins, s', p);
    } else {
      assert Holding(s, c, WaitLock);
      if SlotLock(p) in HeldBy(s, c) { NotFallingAsleep(s, c, p); }
      PendingHere(s, c, ins, s', p);
    }
  }

  lemma PendingStarts(s: State, c: nat, ins: Instr, s': State, p: nat)
    requires GoodStep(s, c, ins, s') && Sizes(s') && CpuShape(s', c) && CpuLocks(s', c)
    requires s.cpus[c].run.P? && s.cpus[c].run != P(p) && !ins.op.Leave? && !ins.op.Enter?
    requires PendingPc(Thread(ins.pc, ins.trap, false, false, None), p)
    ensures WakePending(s', p)
  {
    assert WaitLock in HeldBy(s', c);
    assert Holding(s', c, WaitLock);
  }

  /** The parts of StatementOk that matter to a sleeper. */
  ghost predicate SleepFacts(s: State, c: nat, ins: Instr)
    requires Sizes(s) && c < |s.cpus| && TidFits(s.cpus[c].run, s) && ins.Do? && Addresses(ins, |s.procs|)
  {
    var t, th := s.cpus[c].run, Th(s, s.cpus[c].run);
    && WriteOk(s, t, th, HeldBy(s, c), ins.w, ins.op) && WakeFollows(s, t, th, HeldBy(s, c), ins)
    && (ins.op.Leave? ==> t.P? && HeldBy(s, c) == {SlotLock(t.slot)})
    && (ins.op.Leave? && ins.trap == NoTrap ==> !ins.pc.Exiting? || ins.pc.ex.ExDead?)
    && (ins.op.Enter? ==> t.S?)
  }

  lemma StatementSleepFacts(s: State, c: nat, ins: Instr)
    requires Sizes(s) && c < |s.cpus| && TidFits(s.cpus[c].run, s) && ins.Do? && Addresses(ins, |s.procs|)
    requires var t, th := s.cpus[c].run, Th(s, s.cpus[c].run);
      && WriteOk(s, t, th, Held(th, t), ins.w, ins.op) && WakeFollows(s, t, th, Held(th, t), ins)
      && LocksFollow(ins.op, Held(th, t), Held(th.(pc := ins.pc, trap := ins.trap), t), t)
      && (t.P? ==> StateFollows(s, t.slot, th.pc, ins))
    ensures SleepFacts(s, c, ins)
  {
  }

  /** A ZOMBIE child of a sleeper, old or new, comes with a wakeup that is under way. */
  lemma ZombiePending(s: State, c: nat, ins: Instr, s': State, p: nat, i: nat)
    requires Base(s) && Structure(s') && Locks(s') && GoodStep(s, c, ins, s') && CpuShape(s, c) && CpuShape(s', c) &&
      TouchesIdle(s, ins.w)
    requires SleepFacts(s, c, ins)
    requires p < |s.procs| && s.cpus[c].run != P(p) && SleepOk(s, p) && Asleep(s, p) && Asleep(s', p)
    requires i < |s.procs| && IsKid(s', p, i) && s'.procs[i].state == ZOMBIE
    ensures WakePending(s', p)
  {
    var t, th := s.cpus[c].run, Th(s, s.cpus[c].run);
    NewZombie(s, t, th, HeldBy(s, c), ins, s', p, i);
    if t.P? && PendingPc(Thread(ins.pc, ins.trap, false, false, None), p) {
      assert CpuLocks(s', c);
      PendingStarts(s, c, ins, s', p);
    } else {
      PendingKept(s, c, ins, s', p);
    }
  }

  /** No child of a sleeper exits: exit_process has woken its parent by then. */
  lemma KidStaysLive(s: State, t: Tid, th: Thread, cur: set<Lock>, w: Write, op: Op, s': State, p: nat, i: nat)
    requires Sizes(s) && |s'.procs| == |s.procs| && TidFits(t, s) && WriteFits(w, |s.procs|)
    requires TableFollows(s, s', w) && WriteOk(s, t, th, cur, w, op)
    requires p < |s.procs| && i < |s.procs| && Asleep(s, p) && LiveKid(s, p, i)
    ensures s'.procs[i].state != ZOMBIE
  {
  }

  lemma KidRemains(s: State, c: nat, ins: Instr, s': State, p: nat)
    requires Base(s) && GoodStep(s, c, ins, s') && SleepFacts(s, c, ins) && Sizes(s')
    requires p < |s.procs| && s.cpus[c].run != P(p) && Asleep(s, p) && HasLiveKid(s, p)
    ensures HasLiveKid(s', p)
  {
    var t, th := s.cpus[c].run, Th(s, s.cpus[c].run);
    KidsRemain(s, t, th, HeldBy(s, c), ins, s', p);
    var k :| 0 <= k < |s.procs| && LiveKid(s, p, k);
    KidStaysLive(s, t, th, HeldBy(s, c), ins.w, ins.op, s', p, k);
    assert LiveKid(s', p, k);
  }

  lemma StaysAsleep(s: State, c: nat, ins: Instr, s': State, p: nat)
    requires Base(s) && Structure(s') && Locks(s') && GoodStep(s, c, ins, s') && CpuShape(s, c) && CpuShape(s', c) &&
      TouchesIdle(s, ins.w)
    requires SleepFacts(s, c, ins)
    requires p < |s.procs| && s.cpus[c].run != P(p) && SleepOk(s, p) && Asleep(s, p)
    ensures SleepOk(s', p)
  {
    if Asleep(s', p) {
      KidRemains(s, c, ins, s', p);
      forall i | 0 <= i < |s.procs| && IsKid(s', p, i) && s'.procs[i].state == ZOMBIE ensures WakePending(s', p) {
        ZombiePending(s, c, ins, s', p, i);
      }
    }
  }

  /** The acting process was already past the point of no return in sleep. */
  lemma SleepsOn(s: State, c: nat, ch: Choice, ins: Instr, s': State, p: nat)
    requires Base(s) && GoodStep(s, c, ins, s') && CpuShape(s, c) && ins == Code(s, c, ch) && TouchesIdle(s, ins.w)
    requires p < |s.procs| && s.cpus[c].run == P(p) && SleepOk(s, p) && Asleep(s, p) && Sizes(s')
    ensures SleepOk(s', p)
  {
    SleeperRuns(s, c, ch, p);
    SleepingFrame(s, ins, s', p);
    if exists i :: 0 <= i < |s.procs| && IsKid(s, p, i) && s.procs[i].state == ZOMBIE {
      OwnPending(s, c, ins, s', p);
    }
  }

  lemma SleeperRuns(s: State, c: nat, ch: Choice, p: nat)
    requires Base(s) && c < |s.cpus| && p < |s.procs| && s.cpus[c].run == P(p) && Asleep(s, p)
    ensures s.procs[p].state == RUNNING && SleepWrite(s, p, Code(s, c, ch))
  {
    RunningThread(s, c, p);
    assert AsleepPc(s.threads[p]);
    SleepingWrite(s, c, ch, p);
  }

  /** What the last steps of sleep write. */
  lemma SleepingWrite(s: State, c: nat, ch: Choice, p: nat)
    requires Shape(s) && c < |s.cpus| && p < |s.procs| && s.cpus[c].run == P(p) && SlotShape(s, p) &&
      AsleepPc(s.threads[p])
    ensures SleepWrite(s, p, Code(s, c, ch))
  {
  }

  predicate SleepWrite(s: State, p: nat, ins: Instr)
    requires p < |s.procs|
  {
    ins.Do? ==>
      && !ins.op.Enter?
      && (ins.w == Nothing || (ins.w.Put? && ins.w.i == p && ins.w.pr.parent == s.procs[p].parent &&
          ins.w.pr.state == SLEEPING))
  }

  lemma SleepingFrame(s: State, ins: Instr, s': State, p: nat)
    requires Sizes(s) && p < |s.procs| == |s'.procs| && ins.Do? && Addresses(ins, |s.procs|) &&
      TableFollows(s, s', ins.w)
    requires SleepWrite(s, p, ins) && s.procs[p].state == RUNNING && HasLiveKid(s, p)
    ensures HasLiveKid(s', p)
    ensures forall i :: 0 <= i < |s.procs| && IsKid(s', p, i) && s'.procs[i].state == ZOMBIE ==>
              IsKid(s, p, i) && s.procs[i].state == ZOMBIE
  {
    var k :| 0 <= k < |s.procs| && LiveKid(s, p, k);
    assert LiveKid(s', p, k);
  }

  lemma OwnPending(s: State, c: nat, ins: Instr, s': State, p: nat)
    requires Base(s) && GoodStep(s, c, ins, s') && CpuShape(s, c) && TouchesIdle(s, ins.w) && Sizes(s')
    requires p < |s.procs| && s.cpus[c].run == P(p) && WakePending(s, p) && !ins.op.Enter?
    ensures WakePending(s', p)
  {
    assert RunOk(s, c);
    PendingElsewhere(s, c, ins, s', p);
  }

  lemma NewSleeper(s: State, c: nat, ch: Choice, ins: Instr, s': State, p: nat)
    requires Base(s) && GoodStep(s, c, ins, s') && CpuShape(s, c) && Sizes(s') && ins == Code(s, c, ch)
    requires p < |s.procs| && s.cpus[c].run == P(p) && !Asleep(s, p) && SlotShape(s, p) && ThreadOk(s, p)
    ensures SleepOk(s', p)
  {
    RunningThread(s, c, p);
    if Asleep(s', p) {
      StateOfNewSleeper(s, c, ch, p);
      FallsAsleep(s, c, ch, ins, s', p);
    }
  }

  /** A running process that is not on its way to sleep is not made SLEEPING. */
  lemma StateOfNewSleeper(s: State, c: nat, ch: Choice, p: nat)
    requires Shape(s) && c < |s.cpus| && p < |s.procs| && s.cpus[c].run == P(p) && SlotShape(s, p) &&
      !AsleepPc(s.threads[p])
    requires s.procs[p].state != SLEEPING && Code(s, c, ch).Do?
    ensures var w := Code(s, c, ch).w; w.Put? && w.i == p ==> w.pr.state != SLEEPING
  {
  }

  lemma KeepsSleeper(s: State, c: nat, ch: Choice, ins: Instr, s': State, p: nat)
    requires Base(s) && Structure(s') && Locks(s') && GoodStep(s, c, ins, s') && CpuShape(s, c) && CpuShape(s', c)
    requires TouchesIdle(s, ins.w) && ins == Code(s, c, ch) && SleepFacts(s, c, ins)
    requires AsleepPc(Thread(ins.pc, ins.trap, false, false, None)) ==>
               AsleepPc(Th(s, s.cpus[c].run)) || WaitLock in HeldBy(s, c)
    requires p < |s.procs| && SleepOk(s, p) && SlotShape(s, p) && ThreadOk(s, p)
    ensures SleepOk(s', p)
  {
    if s.cpus[c].run != P(p) {
      if Asleep(s', p) {
        AsleepFrame(s, c, ins, s', p);
        StaysAsleep(s, c, ins, s', p);
      }
    } else if Asleep(s, p) {
      SleepsOn(s, c, ch, ins, s', p);
    } else {
      NewSleeper(s, c, ch, ins, s', p);
    }
  }

  lemma KeepsSleepers(s: State, c: nat, ch: Choice, ins: Instr, s': State)
    requires Base(s) && Sleepers(s) && Structure(s') && Locks(s') && GoodStep(s, c, ins, s') && CpuShape(s, c)
    requires TouchesIdle(s, ins.w) && ins == Code(s, c, ch) && SleepFacts(s, c, ins)
    requires AsleepPc(Thread(ins.pc, ins.trap, false, false, None)) ==>
               AsleepPc(Th(s, s.cpus[c].run)) || WaitLock in HeldBy(s, c)
    ensures Sleepers(s')
  {
    assert CpuShape(s', c);
    forall p | 0 <= p < |s.procs| ensures SleepOk(s', p) {
      assert SleepOk(s, p) && SlotShape(s, p) && ThreadOk(s, p);
      KeepsSleeper(s, c, ch, ins, s', p);
    }
  }
}
