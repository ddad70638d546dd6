/** What the kernel promises, for every reachable state and every run, on any number of CPUs. */
module ProcTheorems {
  import opened Prelude
  import opened ProcModel
  import opened ProcInvariants
  import opened ProcEffects
  import opened ProcPreservation
  import opened ProcStep
  import opened ProcSleep
  import opened ProcHistory
  import opened ProcInduction

  // ----- locking

  /** No interleaving of threads and timer interrupts reaches a panic of the locking code. */
  lemma LockingNeverPanics(s: State, c: nat, ch: Choice)
    requires Reachable(s) && Shape(s) && c < |s.cpus|
    ensures Exec(s, c, ch) != LockPanic
  {
    ReachableInv(s);
    NoLockPanic(s, c, ch);
  }

  /** A CPU that spins waits for another CPU that holds the lock at its present program point. */
  lemma SpinsOnlyForOthers(s: State, c: nat, ch: Choice)
    requires Reachable(s) && Shape(s) && c < |s.cpus| && Exec(s, c, ch) == Spin
    ensures Code(s, c, ch).Do? && Code(s, c, ch).op.Lock?
    ensures var l := Code(s, c, ch).op.l;
      l in s.held && s.held[l] != c && s.held[l] < |s.cpus| && CpuShape(s, s.held[l]) && l in HeldBy(s, s.held[l])
  {
    ReachableInv(s);
    assert CpuShape(s, c);
    CodeStatement(s, c, ch);
    var ins := Code(s, c, ch);
    ApplyFrame(s, ins.w);
    var d := s.held[ins.op.l];
    assert CpuShape(s, d) && CpuLocks(s, d);
    assert Holding(s, d, ins.op.l);
  }

  /** On one CPU every test-and-set in acquire succeeds at the first try. */
  lemma OneCpuNeverSpins(s: State, ch: Choice)
    requires Reachable(s) && Shape(s) && |s.cpus| == 1
    ensures Exec(s, 0, ch) != Spin
  {
    if Exec(s, 0, ch) == Spin { SpinsOnlyForOthers(s, 0, ch); }
  }

  /** noff counts exactly the locks the CPU holds, and interrupts are off while it holds one. */
  lemma InterruptsOffUnderLocks(s: State, c: nat)
    requires Reachable(s) && c < |s.cpus|
    ensures s.cpus[c].intr.noff == |set l | l in s.held && s.held[l] == c|
    ensures s.cpus[c].intr.noff > 0 ==> !s.cpus[c].intr.sie
  {
    ReachableInv(s);
    assert CpuShape(s, c) && CpuLocks(s, c);
    var mine := set l | l in s.held && s.held[l] == c;
    assert mine == HeldBy(s, c) by {
      forall l ensures l in mine <==> l in HeldBy(s, c) { assert l in HeldBy(s, c) <==> Holding(s, c, l); }
    }
  }

  // ----- the hand-over of p->lock across swtch

  lemma HandOver(s: State, p: nat)
    requires Reachable(s) && p < |s.procs| && SlotLock(p) !in s.held
    ensures s.procs[p].state == RUNNING <==> exists c :: 0 <= c < |s.cpus| && s.cpus[c].proc == Some(p)
    ensures
      forall c, d ::
        0 <= c < |s.cpus| && 0 <= d < |s.cpus| && s.cpus[c].proc == Some(p) && s.cpus[d].proc == Some(p) ==> c == d
  {
    ReachableInv(s);
    assert TableOk(s, p) && OnOk(s, p);
    forall c | 0 <= c < |s.cpus| && s.cpus[c].proc == Some(p)
      ensures s.procs[p].state == RUNNING && s.threads[p].on == Some(c)
    {
      assert CpuShape(s, c) && RunOk(s, c) && CpuLocks(s, c) && SchedKind(s.scheds[c]);
      assert SlotLock(p) in HeldBy(s, c) ==> Holding(s, c, SlotLock(p));
    }
    if s.procs[p].state == RUNNING {
      assert CpuShape(s, s.threads[p].on.value) && RunOk(s, s.threads[p].on.value);
    }
  }

  /** No kernel stack is in use on two CPUs, and c->proc names the slot whose stack is in use. */
  lemma OneCpuPerStack(s: State, c: nat, d: nat, p: nat)
    requires Reachable(s) && c < |s.cpus| && d < |s.cpus| && s.cpus[c].run == P(p) && s.cpus[d].run == P(p)
    ensures c == d && s.cpus[c].proc == Some(p)
  {
    ReachableInv(s);
    assert CpuShape(s, c) && CpuShape(s, d) && RunOk(s, c) && RunOk(s, d);
  }

  /** Which write a change of state stands for. */
  lemma StateChange(s: State, t: Tid, th: Thread, cur: set<Lock>, w: Write, op: Op, s': State, i: nat)
    requires Writes(s, t, th, cur, w, op, s') && i < |s.procs| && s.procs[i].state != s'.procs[i].state
    requires s.procs[i].state in {UNUSED, RUNNABLE} || s'.procs[i].state == UNUSED
    ensures w != Nothing && w.i == i && (w.Alloc? || w.Free? || (s.procs[i].state == RUNNABLE && w.Put?))
  {
  }

  /** A slot is dispatched, allocated or reaped only while no CPU executes on its stack. */
  lemma NoStackTakenAway(s: State, e: Event, s': State, i: nat, d: nat)
    requires Reachable(s) && StepTo(s, e, s') && i < |s.procs| == |s'.procs| && d < |s.cpus|
    requires s.procs[i].state != s'.procs[i].state
    requires s.procs[i].state in {UNUSED, RUNNABLE} || s'.procs[i].state == UNUSED
    ensures s.cpus[d].run != P(i)
  {
    ReachableInv(s);
    GoodWrites(s, e, s');
    var c, ins, t := e.cpu, Code(s, e.cpu, e.ch), s.cpus[e.cpu].run;
    StateChange(s, t, Th(s, t), HeldBy(s, c), ins.w, ins.op, s', i);
    assert CpuShape(s, d) && RunOk(s, d) && TableOk(s, i);
  }

  lemma GoodWrites(s: State, e: Event, s': State)
    requires Base(s) && StepTo(s, e, s')
    ensures CpuShape(s, e.cpu) && Code(s, e.cpu, e.ch).Do? && TouchesIdle(s, Code(s, e.cpu, e.ch).w)
    ensures var ins, t := Code(s, e.cpu, e.ch), s.cpus[e.cpu].run;
      Writes(s, t, Th(s, t), HeldBy(s, e.cpu), ins.w, ins.op, s')
  {
    GoodStepFromExec(s, e.cpu, e.ch, s');
    CodeStatement(s, e.cpu, e.ch);
  }

  // ----- sleep and wakeup

  /**
   A process asleep in wait_process has a child.  If one of them is a ZOMBIE, the holder of wait_lock is
   in a wakeup loop that will still reach the process; so while wait_lock is free none of them is.
  */
  lemma NoLostWakeup(s: State, p: nat)
    requires Reachable(s) && p < |s.procs| && s.procs[p].state == SLEEPING
    ensures Sizes(s) && s.procs[p].chan == OnProc(p) && HasKid(s, p)
    ensures forall i :: 0 <= i < |s.procs| && IsKid(s, p, i) && s.procs[i].state == ZOMBIE ==> WakePending(s, p)
    ensures WaitLock !in s.held ==> forall i :: 0 <= i < |s.procs| && IsKid(s, p, i) ==> s.procs[i].state != ZOMBIE
  {
    ReachableInv(s);
    assert TableOk(s, p) && SleepOk(s, p);
    var i :| 0 <= i < |s.procs| && LiveKid(s, p, i);
    assert IsKid(s, p, i);
  }

  /** Slot d is reached from p by k parent links. */
  predicate Descends(s: State, d: nat, p: nat, k: nat)
    decreases k
  {
    if k == 0 then d == p
    else d < |s.procs| && s.procs[d].parent.Some? && Descends(s, s.procs[d].parent.value, p, k - 1)
  }

  lemma {:induction false} DescendsUp(s: State, d: nat, i: nat, p: nat, k: nat)
    requires Descends(s, d, i, k) && i < |s.procs| && IsKid(s, p, i)
    ensures Descends(s, d, p, k + 1)
    decreases k
  {
    if k > 0 { DescendsUp(s, s.procs[d].parent.value, i, p, k - 1); }
    else { assert Descends(s, p, p, 0); }
  }

  /** Some descendant of a waiting process can run: processes never wait for each other in a ring. */
  lemma {:induction false} WaitersHaveWorkers(s: State, p: nat) returns (d: nat, k: nat)
    requires Inv(s) && p < |s.procs| && s.procs[p].state == SLEEPING
    ensures d < |s.procs| && k > 0 && Descends(s, d, p, k) && s.procs[d].state in {RUNNABLE, RUNNING}
    decreases s.nextpid - s.procs[p].pid
  {
    assert TableOk(s, p) && SleepOk(s, p) && PidOk(s, p);
    var i :| 0 <= i < |s.procs| && LiveKid(s, p, i);
    KidOfSleeper(s, p, i);
    assert ParentOk(s, i) && PidOk(s, i);
    if s.procs[i].state == SLEEPING {
      d, k := WaitersHaveWorkers(s, i);
      DescendsUp(s, d, i, p, k);
      k := k + 1;
    } else {
      assert Descends(s, p, p, 0);
      d, k := i, 1;
    }
  }

  /** Only a running thread can be the parent of a slot that is still being created. */
  lemma CreatorRuns(s: State, p: nat, i: nat)
    requires Inv(s) && p < |s.procs| && i < |s.procs| && s.procs[i].state == USED && IsKid(s, p, i)
    ensures s.procs[p].state == RUNNING
  {
    assert TableOk(s, i) && TableOk(s, p);
    var q := s.cpus[s.held[SlotLock(i)]].run.slot;
    assert SlotShape(s, q) && ThreadOk(s, q);
    assert q == p;
    assert CpuShape(s, s.held[SlotLock(i)]) && RunOk(s, s.held[SlotLock(i)]);
  }

  lemma KidOfSleeper(s: State, p: nat, i: nat)
    requires Inv(s) && p < |s.procs| && i < |s.procs| && s.procs[p].state == SLEEPING && LiveKid(s, p, i)
    ensures Live(s.procs[i].state)
  {
    assert ParentOk(s, i);
    if s.procs[i].state == USED { CreatorRuns(s, p, i); }
  }

  /** At every moment, whoever holds wait_lock, some descendant of a process asleep in wait_process can run. */
  lemma NoDeadlockAmongWaiters(s: State, p: nat)
    requires Reachable(s) && p < |s.procs| && s.procs[p].state == SLEEPING
    ensures
      exists d, k ::
        0 <= d < |s.procs| && k > 0 && Descends(s, d, p, k) && s.procs[d].state in {RUNNABLE, RUNNING}
  {
    ReachableInv(s);
    var d, k := WaitersHaveWorkers(s, p);
  }

  /** wait_process returns -1 exactly when the caller has no child. */
  lemma WaitFindsChildren(s: State, p: nat, kids: bool)
    requires Reachable(s) && Shape(s) && p < |s.procs| && s.threads[p].pc == Waiting(WtScan(|s.procs|, kids))
    ensures kids <==> HasKid(s, p)
    ensures forall i :: 0 <= i < |s.procs| && IsKid(s, p, i) ==> s.procs[i].state != ZOMBIE
  {
    ReachableInv(s);
    assert SlotShape(s, p) && ThreadOk(s, p);
  }

  // ----- exit and wait

  lemma ExactlyOnceReaping(s: State)
    requires Reachable(s)
    ensures forall i, j :: 0 <= i < j < |s.exits| ==> s.exits[i].pid != s.exits[j].pid
    ensures forall i, j :: 0 <= i < j < |s.reaps| ==> s.reaps[i].pid != s.reaps[j].pid
    ensures forall i :: 0 <= i < |s.reaps| ==> Exit(s.reaps[i].pid, s.reaps[i].status) in s.exits
    ensures |s.exits| == |s.reaps| + |Zombies(s)|
  {
    ReachableInv(s);
  }

  /** What wait_process hands out is the pid and status of a ZOMBIE child of its caller. */
  lemma ReapsOwnChild(s: State, e: Event, s': State)
    requires Reachable(s) && StepTo(s, e, s') && s'.reaps != s.reaps
    ensures s.cpus[e.cpu].run.P? && s.cpus[e.cpu].run.slot < |s.procs|
    ensures exists j :: 0 <= j < |s.procs| && IsKid(s, s.cpus[e.cpu].run.slot, j) && s.procs[j].state == ZOMBIE &&
              s'.reaps == s.reaps + [Reap(s.procs[s.cpus[e.cpu].run.slot].pid, s.procs[j].pid, s.procs[j].xstate)]
  {
    ReachableInv(s);
    GoodStepFromExec(s, e.cpu, e.ch, s');
    CodeStatement(s, e.cpu, e.ch);
    var ins := Code(s, e.cpu, e.ch);
    assert ins.w.Free?;
    assert IsKid(s, s.cpus[e.cpu].run.slot, ins.w.i);
  }

  lemma OrphanWrite(s: State, t: Tid, th: Thread, cur: set<Lock>, w: Write, op: Op, s': State, p: nat)
    requires Writes(s, t, th, cur, w, op, s') && p < |s.procs| && s.procs[p].state == ZOMBIE &&
      s.procs[p].parent == None
    ensures s'.procs[p] == s.procs[p]
  {
  }

  /** A ZOMBIE without a parent (created by main) keeps its slot. */
  lemma OrphanZombieStays(s: State, e: Event, s': State, p: nat)
    requires Inv(s) && StepTo(s, e, s') && p < |s.procs| && s.procs[p].state == ZOMBIE && s.procs[p].parent == None
    ensures p < |s'.procs| && s'.procs[p] == s.procs[p]
  {
    GoodWrites(s, e, s');
    var ins, t := Code(s, e.cpu, e.ch), s.cpus[e.cpu].run;
    OrphanWrite(s, t, Th(s, t), HeldBy(s, e.cpu), ins.w, ins.op, s', p);
  }

  // ----- the status of an exit, and who wakes whom

  /** What a process thread is about to write when it records an exit. */
  lemma DieComesFrom(s: State, c: nat, ch: Choice)
    requires Shape(s) && c < |s.cpus| && CpuShape(s, c) && RunOk(s, c) && Code(s, c, ch).Do? && Code(s, c, ch).w.Die?
    ensures s.cpus[c].run == P(Code(s, c, ch).w.i)
    ensures s.threads[Code(s, c, ch).w.i].pc == Exiting(Code(s, c, ch).w.status, ExDie)
  {
  }

  /** An exit is recorded by the process that exits, with the status it carries. */
  lemma ExitReportsStatus(s: State, e: Event, s': State)
    requires Reachable(s) && StepTo(s, e, s') && s'.exits != s.exits
    ensures
      exists p, status ::
        && 0 <= p < |s.procs| == |s.threads| && s.cpus[e.cpu].run == P(p)
        && s.threads[p].pc == Exiting(status, ExDie)
        && s'.exits == s.exits + [Exit(s.procs[p].pid, status)]
  {
    ReachableInv(s);
    GoodWrites(s, e, s');
    assert RunOk(s, e.cpu);
    var w := Code(s, e.cpu, e.ch).w;
    assert w.Die?;
    DieComesFrom(s, e.cpu, e.ch);
    assert s.threads[w.i].pc == Exiting(w.status, ExDie);
  }

  /**
   That status is the argument of the call: exit_process carries it unchanged from its first statement
   to its last.
  */
  lemma ExitCarriesStatus(s: State, p: nat, ch: Choice)
    requires Sizes(s) && p < |s.procs| && PcFits(s.threads[p].pc, |s.procs|) && ThreadCode(s, p, ch).Do?
    ensures s.threads[p].pc.Exiting? ==>
      ThreadCode(s, p, ch).pc.Exiting? && ThreadCode(s, p, ch).pc.status == s.threads[p].pc.status
    ensures !s.threads[p].pc.Exiting? && ThreadCode(s, p, ch).pc.Exiting? ==>
      s.threads[p].pc == Body && ch == CallExit(ThreadCode(s, p, ch).pc.status)
  {
  }

  /** Which statements make a SLEEPING slot RUNNABLE. */
  lemma WokenBy(s: State, c: nat, ch: Choice, i: nat)
    requires Base(s) && c < |s.cpus| && CpuShape(s, c) && i < |s.procs| && s.procs[i].state == SLEEPING &&
      s.procs[i].chan == OnProc(i)
    requires Code(s, c, ch).Do? && Code(s, c, ch).w.Put? && Code(s, c, ch).w.i == i &&
      Code(s, c, ch).w.pr.state != SLEEPING
    ensures s.cpus[c].run.P? && s.cpus[c].run.slot < |s.threads|
    ensures var th := s.threads[s.cpus[c].run.slot];
      th.trap == NoTrap && th.pc.Exiting? && th.pc.ex.ExWakeHeld? && th.pc.ex.chan == i && th.pc.ex.k == i
  {
    assert RunOk(s, c);
    if s.cpus[c].run.P? { RunningThread(s, c, s.cpus[c].run.slot); }
  }

  lemma AwakeWrite(s: State, t: Tid, th: Thread, cur: set<Lock>, w: Write, op: Op, s': State, i: nat)
    requires Writes(s, t, th, cur, w, op, s') && i < |s.procs| && s.procs[i].state == SLEEPING &&
      s'.procs[i].state != SLEEPING
    ensures w.Put? && w.i == i && w.pr == s.procs[i].(state := RUNNABLE)
  {
  }

  /**
   A sleeper is woken only by an exiting process that calls wakeup on it; a tick wakes nobody who waits
   for a child.
  */
  lemma OnlyWakeupWakes(s: State, e: Event, s': State, i: nat)
    requires Reachable(s) && StepTo(s, e, s') && i < |s.procs| == |s'.procs| && s.procs[i].state == SLEEPING &&
      s'.procs[i].state != SLEEPING
    ensures s'.procs[i] == s.procs[i].(state := RUNNABLE)
    ensures s.cpus[e.cpu].run.P? && s.cpus[e.cpu].run.slot < |s.threads|
    ensures var pc := s.threads[s.cpus[e.cpu].run.slot].pc;
      pc.Exiting? && pc.ex.ExWakeHeld? && pc.ex.chan == i && pc.ex.k == i
  {
    ReachableInv(s);
    GoodWrites(s, e, s');
    assert TableOk(s, i);
    var ins, t := Code(s, e.cpu, e.ch), s.cpus[e.cpu].run;
    AwakeWrite(s, t, Th(s, t), HeldBy(s, e.cpu), ins.w, ins.op, s', i);
    WokenBy(s, e.cpu, e.ch, i);
  }

  // ----- the process forest

  lemma ProcessForest(s: State, i: nat)
    requires Reachable(s) && i < |s.procs| && s.procs[i].parent.Some?
    ensures var q := s.procs[i].parent.value;
      q < |s.procs| && s.procs[q].state in {RUNNABLE, RUNNING, SLEEPING} && 0 < s.procs[q].pid < s.procs[i].pid
  {
    ReachableInv(s);
    assert ParentOk(s, i) && PidOk(s, s.procs[i].parent.value);
  }

  lemma PidsAreUnique(s: State, i: nat, j: nat)
    requires Reachable(s) && i < |s.procs| && j < |s.procs| && s.procs[i].state != UNUSED && s.procs[j].state != UNUSED
    ensures 0 < s.procs[i].pid < s.nextpid
    ensures s.procs[i].pid == s.procs[j].pid <==> i == j
  {
    ReachableInv(s);
    assert PidOk(s, i) && PidsDiffer(s, i, j);
  }

  /** create_process reads p->pid after it has released the lock, and still returns the pid it assigned. */
  lemma CreateReturnsItsPid(s: State, p: nat, i: nat, pid: nat)
    requires Reachable(s) && Sizes(s) && p < |s.procs| && i < |s.procs| && s.threads[p].pc == Creating(CrReturn(i, pid))
    ensures CreateResult(s, i) == pid && s.procs[i].parent == Some(p) && s.procs[i].state != UNUSED
  {
    ReachableInv(s);
    assert SlotShape(s, p) && ThreadOk(s, p) && ParentOk(s, i);
  }
}
